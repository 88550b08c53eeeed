/**
 * What gpu_chase_cleanup.py guarantees: the filter keeps exactly the names
 * that start with the prefix, in order; every matched name gets one delete
 * request and no other name gets any; a failed delete is reported and the
 * pass goes on, while a failed listing ends it.
 */
module GpuChaseCleanupProperties {
  import opened Prelude
  import opened Text
  import opened Compute
  import opened Operations
  import opened GpuChaseCleanup

  /** A name is kept exactly when it is listed and starts with the prefix. */
  lemma {:induction false} FilterPrefixMembers(names: seq<string>, prefix: string)
    ensures forall n :: n in FilterPrefix(names, prefix) <==> n in names && StartsWith(n, prefix)
  {
    if |names| > 0 {
      var k := |names| - 1;
      FilterPrefixMembers(names[..k], prefix);
      assert names == names[..k] + [names[k]];
    }
  }

  /** Filtering a concatenation filters each part, keeping their order. */
  lemma {:induction false} FilterPrefixAppend(a: seq<string>, b: seq<string>, prefix: string)
    ensures FilterPrefix(a + b, prefix) == FilterPrefix(a, prefix) + FilterPrefix(b, prefix)
    decreases |b|
  {
    if |b| > 0 {
      var k := |b| - 1;
      FilterPrefixAppend(a, b[..k], prefix);
      assert (a + b)[..|a + b| - 1] == a + b[..k];
    } else {
      assert a + b == a;
    }
  }

  /** Each name is kept as many times as it is listed when it starts with the prefix, and never otherwise. */
  lemma {:induction false} FilterPrefixCounts(names: seq<string>, prefix: string)
    ensures forall n :: multiset(FilterPrefix(names, prefix))[n] == if StartsWith(n, prefix) then multiset(names)[n] else 0
  {
    if |names| > 0 {
      var k := |names| - 1;
      FilterPrefixCounts(names[..k], prefix);
      assert names == names[..k] + [names[k]];
    }
  }

  /** Filtering the matched names again changes nothing. */
  lemma {:induction false} FilterPrefixIdempotent(names: seq<string>, prefix: string)
    ensures FilterPrefix(FilterPrefix(names, prefix), prefix) == FilterPrefix(names, prefix)
  {
    if |names| > 0 {
      var k := |names| - 1;
      var front := FilterPrefix(names[..k], prefix);
      FilterPrefixIdempotent(names[..k], prefix);
      if StartsWith(names[k], prefix) {
        FilterPrefixAppend(front, [names[k]], prefix);
        assert FilterPrefix([names[k]], prefix) == [names[k]] by {
          assert [names[k]][..0] == [];
        }
      } else {
        assert FilterPrefix(names, prefix) == front;
      }
    }
  }

  /** No listed name starts with the prefix: nothing is kept. */
  lemma {:induction false} FilterPrefixNone(names: seq<string>, prefix: string)
    requires forall n <- names :: !StartsWith(n, prefix)
    ensures FilterPrefix(names, prefix) == []
  {
    if |names| > 0 {
      FilterPrefixNone(names[..|names| - 1], prefix);
    }
  }

  /** A zone whose listing has no name with the prefix gets its listing call and nothing else. */
  lemma ZoneWithoutMatchesOnlyLists(st: Sweep, zone: ZoneInventory, prefix: string)
    requires st.phase.Sweeping? && zone.listing.Ok?
    requires forall n <- zone.listing.value :: !StartsWith(n, prefix)
    ensures SweepZone(st, zone, prefix) == st.(calls := st.calls + [ListInstances(zone.name)])
  {
    FilterPrefixNone(zone.listing.value, prefix);
  }

  /**
   * The inlined wait of `delete_instance` reports a deletion only after a
   * poll found the operation DONE without error, every earlier poll having
   * found it not DONE.
   */
  lemma DeletedOnlyWhenDone(zone: string, name: string, script: DeleteScript)
    ensures DeleteSpec(zone, name, script).outcome == Deleted ==>
      && script.request.Ok?
      && exists k :: 0 <= k < |script.polls| && script.polls[k] == Ok(Operation(Done, None))
                     && forall j :: 0 <= j < k ==> !Terminal(script.polls[j])
  {
    if DeleteSpec(zone, name, script).outcome == Deleted {
      var k := FirstTerminal(script.polls);
      assert script.polls[k] == Ok(Operation(Done, None));
    }
  }

  /** The delete requests among `calls`, in order. */
  function DeleteCalls(calls: seq<Call>): seq<Call> {
    if |calls| == 0 then []
    else DeleteCalls(calls[..|calls| - 1]) + if calls[|calls| - 1].Delete? then [calls[|calls| - 1]] else []
  }

  lemma {:induction false} DeleteCallsAppend(a: seq<Call>, b: seq<Call>)
    ensures DeleteCalls(a + b) == DeleteCalls(a) + DeleteCalls(b)
    decreases |b|
  {
    if |b| > 0 {
      var k := |b| - 1;
      DeleteCallsAppend(a, b[..k]);
      assert (a + b)[..|a + b| - 1] == a + b[..k];
    } else {
      assert a + b == a;
    }
  }

  lemma {:induction false} PollsHoldNoDelete(zone: string, n: nat)
    ensures DeleteCalls(Polls(zone, n)) == []
  {
    if n > 0 {
      PollsHoldNoDelete(zone, n - 1);
      DeleteCallsAppend(Polls(zone, n - 1), [GetOperation(zone)]);
    }
  }

  /** `delete_instance` sends exactly one delete request: for its own zone and name. */
  lemma OneDeleteRequest(zone: string, name: string, script: DeleteScript)
    ensures DeleteCalls(DeleteSpec(zone, name, script).calls) == [Delete(zone, name)]
  {
    var request := [Delete(zone, name)];
    assert DeleteCalls(request) == request by {
      assert request[..0] == [];
    }
    if script.request.Ok? {
      var polls := Polls(zone, PollsUsed(script.polls));
      PollsHoldNoDelete(zone, PollsUsed(script.polls));
      DeleteCallsAppend(request, polls);
    }
  }

  /** The delete requests for the first `j` of `names` in `zone`. */
  function Requests(zone: string, names: seq<string>, j: nat): (requests: seq<Call>)
    requires j <= |names|
    ensures |requests| == j
  {
    if j == 0 then [] else Requests(zone, names, j - 1) + [Delete(zone, names[j - 1])]
  }

  /** Each of them deletes one of `names` in `zone`. */
  lemma {:induction false} RequestsMembers(zone: string, names: seq<string>, j: nat)
    requires j <= |names|
    ensures forall c <- Requests(zone, names, j) :: c.Delete? && c.zone == zone && c.name in names
  {
    if j > 0 {
      RequestsMembers(zone, names, j - 1);
    }
  }

  /** Fewer names, a prefix of the requests. */
  lemma {:induction false} RequestsPrefix(zone: string, names: seq<string>, i: nat, j: nat)
    requires i <= j <= |names|
    ensures Requests(zone, names, i) <= Requests(zone, names, j)
    decreases j
  {
    if i < j {
      RequestsPrefix(zone, names, i, j - 1);
    }
  }

  /** One delete of the inner loop adds one record and one delete request, for that name. */
  lemma DeleteStepRequests(st: Sweep, zone: ZoneInventory, name: string)
    requires st.phase.Sweeping?
    ensures var next := DeleteStep(st, zone, name);
      && |next.deletes| == |st.deletes| + 1
      && DeleteCalls(next.calls) == DeleteCalls(st.calls) + [Delete(zone.name, name)]
  {
    var d := DeleteSpec(zone.name, name, zone.deletion(name));
    OneDeleteRequest(zone.name, name, zone.deletion(name));
    DeleteCallsAppend(st.calls, d.calls);
  }

  /**
   * `st` is where the inner loop can be after the first `j` names from
   * `start`: one delete request per name reached, in order, and every name
   * reached unless the pass has left the loop.
   */
  ghost predicate ReachedWith(start: Sweep, st: Sweep, zone: ZoneInventory, matched: seq<string>, j: nat)
    requires j <= |matched|
  {
    && |start.deletes| <= |st.deletes| <= |start.deletes| + j
    && DeleteCalls(st.calls) == DeleteCalls(start.calls) + Requests(zone.name, matched, |st.deletes| - |start.deletes|)
    && (st.phase.Sweeping? ==> |st.deletes| == |start.deletes| + j)
  }

  lemma ReachedStep(start: Sweep, st: Sweep, zone: ZoneInventory, matched: seq<string>, j: nat)
    requires j < |matched| && ReachedWith(start, st, zone, matched, j)
    ensures ReachedWith(start, DeleteStep(st, zone, matched[j]), zone, matched, j + 1)
  {
    if st.phase.Sweeping? {
      var next := DeleteStep(st, zone, matched[j]);
      DeleteStepRequests(st, zone, matched[j]);
      assert DeleteCalls(next.calls) == DeleteCalls(start.calls) + Requests(zone.name, matched, j) + [Delete(zone.name, matched[j])];
    }
  }

  /**
   * The inner loop sends one delete request per name it reaches, in order and
   * for nothing else; unless a delete raised out of it or a wait never ended,
   * it reaches every name.
   */
  lemma {:induction false} DeleteUpToRequests(start: Sweep, zone: ZoneInventory, matched: seq<string>, j: nat)
    requires j <= |matched|
    ensures var st := DeleteUpTo(start, zone, matched, j);
      && |start.deletes| <= |st.deletes| <= |start.deletes| + j
      && DeleteCalls(st.calls) == DeleteCalls(start.calls) + Requests(zone.name, matched, |st.deletes| - |start.deletes|)
      && (st.phase.Sweeping? ==> |st.deletes| == |start.deletes| + j)
  {
    if j == 0 {
      assert DeleteCalls(start.calls) + [] == DeleteCalls(start.calls);
    } else {
      DeleteUpToRequests(start, zone, matched, j - 1);
      ReachedStep(start, DeleteUpTo(start, zone, matched, j - 1), zone, matched, j - 1);
    }
  }

  /** The `i`-th request deletes the `i`-th name: one request per name, in order. */
  lemma {:induction false} RequestsAt(zone: string, names: seq<string>, j: nat, i: nat)
    requires i < j <= |names|
    ensures Requests(zone, names, j)[i] == Delete(zone, names[i])
    decreases j
  {
    if i < j - 1 {
      RequestsAt(zone, names, j - 1, i);
    }
  }

  /** The delete requests one zone calls for: one per listed name with the prefix, none if its listing fails. */
  function ZoneTargets(zone: ZoneInventory, prefix: string): seq<Call> {
    match zone.listing
    case Failed(_) => []
    case Ok(names) =>
      var matched := FilterPrefix(names, prefix);
      Requests(zone.name, matched, |matched|)
  }

  /** A zone's targets are one delete per matched name, in listing order. */
  lemma ZoneTargetsInOrder(zone: ZoneInventory, prefix: string)
    requires zone.listing.Ok?
    ensures var matched := FilterPrefix(zone.listing.value, prefix);
      && |ZoneTargets(zone, prefix)| == |matched|
      && forall i :: 0 <= i < |matched| ==> ZoneTargets(zone, prefix)[i] == Delete(zone.name, matched[i])
  {
    var matched := FilterPrefix(zone.listing.value, prefix);
    forall i | 0 <= i < |matched|
      ensures ZoneTargets(zone, prefix)[i] == Delete(zone.name, matched[i])
    {
      RequestsAt(zone.name, matched, |matched|, i);
    }
  }

  /** The delete requests the first `k` zones call for, zone by zone. */
  function Targets(prefix: string, zones: seq<ZoneInventory>, k: nat): seq<Call>
    requires k <= |zones|
  {
    if k == 0 then [] else Targets(prefix, zones, k - 1) + ZoneTargets(zones[k - 1], prefix)
  }

  /** Each of a zone's targets deletes, in that zone, a name its listing holds and that has the prefix. */
  lemma ZoneTargetsMembers(zone: ZoneInventory, prefix: string)
    ensures forall c <- ZoneTargets(zone, prefix) ::
      c.Delete? && c.zone == zone.name && zone.listing.Ok? && c.name in zone.listing.value && StartsWith(c.name, prefix)
  {
    if zone.listing.Ok? {
      var matched := FilterPrefix(zone.listing.value, prefix);
      RequestsMembers(zone.name, matched, |matched|);
      FilterPrefixMembers(zone.listing.value, prefix);
    }
  }

  /** Each target deletes a listed name with the prefix, in the zone that listed it. */
  lemma {:induction false} TargetsMembers(prefix: string, zones: seq<ZoneInventory>, k: nat)
    requires k <= |zones|
    ensures forall c <- Targets(prefix, zones, k) ::
      && c.Delete?
      && StartsWith(c.name, prefix)
      && exists i :: 0 <= i < k && zones[i].name == c.zone && zones[i].listing.Ok? && c.name in zones[i].listing.value
  {
    if k > 0 {
      TargetsMembers(prefix, zones, k - 1);
      ZoneTargetsMembers(zones[k - 1], prefix);
      forall c <- Targets(prefix, zones, k)
        ensures c.Delete? && StartsWith(c.name, prefix)
        ensures exists i :: 0 <= i < k && zones[i].name == c.zone && zones[i].listing.Ok? && c.name in zones[i].listing.value
      {
        if c !in Targets(prefix, zones, k - 1) {
          assert c in ZoneTargets(zones[k - 1], prefix);
          var i := k - 1;
          assert zones[i].name == c.zone && zones[i].listing.Ok? && c.name in zones[i].listing.value;
        }
      }
    }
  }

  /** Listing a zone sends no delete request. */
  lemma ListingHoldsNoDelete(calls: seq<Call>, zone: string)
    ensures DeleteCalls(calls + [ListInstances(zone)]) == DeleteCalls(calls)
  {
    DeleteCallsAppend(calls, [ListInstances(zone)]);
    assert [ListInstances(zone)][..0] == [];
  }

  /** One zone's pass adds a prefix of that zone's targets, and all of them unless the pass leaves the loop. */
  lemma SweepZoneRequests(st: Sweep, zone: ZoneInventory, prefix: string)
    requires st.phase.Sweeping?
    ensures var next := SweepZone(st, zone, prefix);
      exists r :: r <= ZoneTargets(zone, prefix)
        && DeleteCalls(next.calls) == DeleteCalls(st.calls) + r
        && (next.phase.Sweeping? ==> r == ZoneTargets(zone, prefix))
  {
    var listed := st.(calls := st.calls + [ListInstances(zone.name)]);
    ListingHoldsNoDelete(st.calls, zone.name);
    assert DeleteCalls(st.calls) + [] == DeleteCalls(st.calls);
    if zone.listing.Ok? {
      var matched := FilterPrefix(zone.listing.value, prefix);
      if |matched| > 0 {
        var next := DeleteUpTo(listed, zone, matched, |matched|);
        DeleteUpToRequests(listed, zone, matched, |matched|);
        var reached := |next.deletes| - |listed.deletes|;
        RequestsPrefix(zone.name, matched, reached, |matched|);
        assert DeleteCalls(next.calls) == DeleteCalls(st.calls) + Requests(zone.name, matched, reached);
      }
    }
  }

  /** The delete requests of `st` are a prefix of `targets`, and all of them while the pass is sweeping. */
  ghost predicate SentOf(st: Sweep, targets: seq<Call>) {
    && DeleteCalls(st.calls) <= targets
    && (st.phase.Sweeping? ==> DeleteCalls(st.calls) == targets)
  }

  lemma SweepZoneSent(st: Sweep, zone: ZoneInventory, prefix: string, targets: seq<Call>)
    requires SentOf(st, targets)
    ensures SentOf(SweepZone(st, zone, prefix), targets + ZoneTargets(zone, prefix))
  {
    var zoneTargets := ZoneTargets(zone, prefix);
    if st.phase.Sweeping? {
      SweepZoneRequests(st, zone, prefix);
      var r :| r <= zoneTargets
        && DeleteCalls(SweepZone(st, zone, prefix).calls) == DeleteCalls(st.calls) + r
        && (SweepZone(st, zone, prefix).phase.Sweeping? ==> r == zoneTargets);
      assert targets + r <= targets + zoneTargets by {
        assert (targets + zoneTargets)[..|targets + r|] == targets + r;
      }
    } else {
      assert targets <= targets + zoneTargets by {
        assert (targets + zoneTargets)[..|targets|] == targets;
      }
    }
  }

  /**
   * A pass through the first `k` zones has sent a prefix of their targets as
   * its delete requests, and all of them if it is still sweeping.
   */
  lemma {:induction false} SweepUpToRequests(prefix: string, zones: seq<ZoneInventory>, k: nat)
    requires k <= |zones|
    ensures SentOf(SweepUpTo(prefix, zones, k), Targets(prefix, zones, k))
  {
    if k == 0 {
      assert DeleteCalls([]) == [];
    } else {
      SweepUpToRequests(prefix, zones, k - 1);
      SweepZoneSent(SweepUpTo(prefix, zones, k - 1), zones[k - 1], prefix, Targets(prefix, zones, k - 1));
    }
  }

  /**
   * Whatever happens, `delete_all_instances_with_prefix` sends a delete only
   * for a name with the prefix, in a zone whose listing contained that name.
   */
  lemma OnlyPrefixedNamesDeleted(prefix: string, zoneListing: Reply<seq<ZoneInventory>>)
    ensures forall c <- DeleteCalls(Purge(prefix, zoneListing).calls) ::
      && zoneListing.Ok?
      && c.Delete?
      && StartsWith(c.name, prefix)
      && exists i :: 0 <= i < |zoneListing.value| && zoneListing.value[i].name == c.zone
                     && zoneListing.value[i].listing.Ok? && c.name in zoneListing.value[i].listing.value
  {
    if zoneListing.Ok? {
      var zones := zoneListing.value;
      SweepUpToRequests(prefix, zones, |zones|);
      TargetsMembers(prefix, zones, |zones|);
    } else {
      assert DeleteCalls([]) == [];
    }
  }

  /**
   * A pass that ends without an exception has sent exactly the targets:
   * one delete for each matched name of each zone, zone by zone and in
   * listing order, and nothing more.
   */
  lemma EveryMatchDeletedOnce(prefix: string, zones: seq<ZoneInventory>)
    requires Purge(prefix, Ok(zones)).phase.Sweeping?
    ensures DeleteCalls(Purge(prefix, Ok(zones)).calls) == Targets(prefix, zones, |zones|)
  {
    SweepUpToRequests(prefix, zones, |zones|);
  }

  lemma ListingFailureStops(st: Sweep, zone: ZoneInventory, prefix: string)
    requires st.phase.Sweeping? && zone.listing.Failed?
    ensures SweepZone(st, zone, prefix) == Sweep(st.calls + [ListInstances(zone.name)], st.deletes, SweepAborted(ApiCallError(zone.listing.code)))
  {
  }

  /**
   * A failed instance listing is not caught: the pass ends in that zone,
   * right after its listing call, with the API error.
   */
  lemma ListingFailureEndsPass(prefix: string, zones: seq<ZoneInventory>, i: nat)
    requires i < |zones| && zones[i].listing.Failed?
    requires SweepUpTo(prefix, zones, i).phase.Sweeping?
    ensures var st := SweepUpTo(prefix, zones, i);
      Purge(prefix, Ok(zones)) == Sweep(st.calls + [ListInstances(zones[i].name)], st.deletes, SweepAborted(ApiCallError(zones[i].listing.code)))
  {
    ListingFailureStops(SweepUpTo(prefix, zones, i), zones[i], prefix);
    assert !SweepUpTo(prefix, zones, i + 1).phase.Sweeping?;
    SweepSettled(prefix, zones, i + 1, |zones|);
  }

  /** Every delete of `matched` in `zone` either finishes or is caught and reported. */
  ghost predicate DeletesCaught(zone: ZoneInventory, matched: seq<string>) {
    forall n <- matched :: DeleteSpec(zone.name, n, zone.deletion(n)).outcome == Deleted || DeleteSpec(zone.name, n, zone.deletion(n)).outcome.Reported?
  }

  /** Reported deletes do not stop the inner loop: it reaches every name. */
  lemma {:induction false} ReportedDeletesContinue(start: Sweep, zone: ZoneInventory, matched: seq<string>, j: nat)
    requires j <= |matched| && start.phase.Sweeping? && DeletesCaught(zone, matched)
    ensures DeleteUpTo(start, zone, matched, j).phase.Sweeping?
    ensures |DeleteUpTo(start, zone, matched, j).deletes| == |start.deletes| + j
  {
    if j > 0 {
      ReportedDeletesContinue(start, zone, matched, j - 1);
      assert matched[j - 1] in matched;
    }
  }

  /** Every zone lists its instances, and every delete of a matched name finishes or is reported. */
  ghost predicate Cooperative(prefix: string, zones: seq<ZoneInventory>) {
    forall z <- zones :: z.listing.Ok? && DeletesCaught(z, FilterPrefix(z.listing.value, prefix))
  }

  lemma {:induction false} CooperativeSweeps(prefix: string, zones: seq<ZoneInventory>, k: nat)
    requires k <= |zones| && Cooperative(prefix, zones)
    ensures SweepUpTo(prefix, zones, k).phase.Sweeping?
  {
    if k > 0 {
      CooperativeSweeps(prefix, zones, k - 1);
      var zone := zones[k - 1];
      assert zone in zones;
      var matched := FilterPrefix(zone.listing.value, prefix);
      var listed := SweepUpTo(prefix, zones, k - 1).(calls := SweepUpTo(prefix, zones, k - 1).calls + [ListInstances(zone.name)]);
      ReportedDeletesContinue(listed, zone, matched, |matched|);
    }
  }

  /**
   * A failed delete is reported and the pass goes on: when every listing
   * succeeds and every delete either finishes or fails with an API error,
   * the pass goes through every zone and deletes every matched name.
   */
  lemma ReportedDeletesDoNotStop(prefix: string, zones: seq<ZoneInventory>)
    requires Cooperative(prefix, zones)
    ensures Purge(prefix, Ok(zones)).phase.Sweeping?
    ensures DeleteCalls(Purge(prefix, Ok(zones)).calls) == Targets(prefix, zones, |zones|)
  {
    CooperativeSweeps(prefix, zones, |zones|);
    SweepUpToRequests(prefix, zones, |zones|);
  }
}
