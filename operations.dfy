/**
 * Waiting for a zone operation (gpu_chase.py `wait_for_operation`, and the
 * copy inlined in gpu_chase_cleanup.py `delete_instance`), and what deleting
 * an instance amounts to. The replies of successive `get` polls are given as
 * a finite sequence; when it runs out before the operation is DONE, the real
 * loop would keep polling every five seconds, possibly forever.
 */
module Operations {
  import opened Prelude
  import opened Compute

  /** A poll ends the wait: the `get` call raised, or the operation is DONE. */
  predicate Terminal(poll: Reply<Operation>) {
    poll.Failed? || poll.value.status == Done
  }

  /** The index of the first poll that ends the wait, or `|polls|` when none does. */
  function FirstTerminal(polls: seq<Reply<Operation>>): (k: nat)
    ensures k <= |polls|
    ensures k < |polls| ==> Terminal(polls[k])
    ensures forall j :: 0 <= j < k ==> !Terminal(polls[j])
  {
    if |polls| == 0 then 0
    else if Terminal(polls[0]) then 0
    else 1 + FirstTerminal(polls[1..])
  }

  /** How a wait ends. */
  datatype Wait =
    | Completed(result: Operation)  // returned the DONE operation
    | Raised(e: Exception)           // raised out of the waiting loop
    | Polling                        // the modelled polls ran out first

  /** What the waiting loop does with the poll that ends it. */
  function Settle(poll: Reply<Operation>): (w: Wait)
    requires Terminal(poll)
    ensures w.Completed? <==> poll.Ok? && poll.value.error.None?
    ensures w.Completed? ==> w.result == poll.value && w.result.status == Done
    ensures w == Raised(IndexError) <==> poll.Ok? && poll.value.error == Some([])
    ensures w.Raised? && w.e.ApiCallError? ==>
      poll == Failed(w.e.code) ||
      (poll.Ok? && poll.value.error.Some? && |poll.value.error.value| > 0 && poll.value.error.value[0] == w.e.code)
    ensures !w.Polling?
  {
    match poll
    case Failed(code) => Raised(ApiCallError(code))
    case Ok(op) =>
      match op.error
      case None => Completed(op)
      case Some(errors) => if |errors| == 0 then Raised(IndexError) else Raised(ApiCallError(errors[0]))
  }

  /** The outcome of waiting on an operation whose polls reply `polls`. */
  function WaitOutcome(polls: seq<Reply<Operation>>): Wait {
    var k := FirstTerminal(polls);
    if k == |polls| then Polling else Settle(polls[k])
  }

  /** The wait keeps polling exactly when no poll ends it. */
  lemma WaitPollsOn(polls: seq<Reply<Operation>>)
    ensures WaitOutcome(polls) == Polling <==> forall j :: 0 <= j < |polls| ==> !Terminal(polls[j])
  {
  }

  /** How many `get` polls the wait issues. */
  function PollsUsed(polls: seq<Reply<Operation>>): (n: nat)
    ensures n <= |polls|
  {
    var k := FirstTerminal(polls);
    if k == |polls| then |polls| else k + 1
  }

  /** The wait is decided by the first terminal poll, and issues exactly the polls up to it. */
  lemma FirstTerminalDecides(polls: seq<Reply<Operation>>, k: nat)
    requires k < |polls| && Terminal(polls[k])
    requires forall j :: 0 <= j < k ==> !Terminal(polls[j])
    ensures WaitOutcome(polls) == Settle(polls[k])
    ensures PollsUsed(polls) == k + 1
  {
  }

  /** Outcome oracle for one delete request: the reply to `delete`, then the polls of its operation. */
  datatype DeleteScript = DeleteScript(request: Reply<()>, polls: seq<Reply<Operation>>)

  /** How a `delete_instance` call ends. */
  datatype Deletion =
    | Deleted                     // the delete operation finished without error
    | Reported(e: Exception)      // a GoogleAPICallError was caught and reported
    | Propagated(e: Exception)    // an exception escaped `delete_instance`
    | StillPolling                // the modelled polls ran out before DONE

  datatype DeleteRun = DeleteRun(outcome: Deletion, calls: seq<Call>)

  /**
   * `delete_instance`: send the delete, wait for its operation, and catch every
   * GoogleAPICallError; only the IndexError of an empty error payload escapes.
   */
  function DeleteSpec(zone: string, name: string, script: DeleteScript): DeleteRun {
    var request := [Delete(zone, name)];
    match script.request
    case Failed(code) => DeleteRun(Reported(ApiCallError(code)), request)
    case Ok(_) =>
      var calls := request + Polls(zone, PollsUsed(script.polls));
      match WaitOutcome(script.polls)
      case Completed(_) => DeleteRun(Deleted, calls)
      case Raised(ApiCallError(code)) => DeleteRun(Reported(ApiCallError(code)), calls)
      case Raised(IndexError) => DeleteRun(Propagated(IndexError), calls)
      case Polling => DeleteRun(StillPolling, calls)
  }

  /**
   * A delete reports every GoogleAPICallError, a refused request's or the
   * wait's, and lets only the IndexError of an empty error list through; it deletes exactly when the request is accepted and its operation
   * completes, and keeps polling exactly when no poll ends the wait. Its calls
   * are the delete request followed by polls of the zone's operations.
   */
  lemma DeleteOutcome(zone: string, name: string, script: DeleteScript)
    ensures var d := DeleteSpec(zone, name, script);
      && (d.outcome.Reported? ==> d.outcome.e.ApiCallError?)
      && (d.outcome.Propagated? ==> d.outcome.e == IndexError)
      && (d.outcome == Deleted <==> script.request.Ok? && WaitOutcome(script.polls).Completed?)
      && (d.outcome == StillPolling <==> script.request.Ok? && WaitOutcome(script.polls) == Polling)
      && |d.calls| >= 1 && d.calls[0] == Delete(zone, name)
      && (forall c <- d.calls[1..] :: c == GetOperation(zone))
      && (script.request.Failed? ==> d.outcome == Reported(ApiCallError(script.request.code)))
      && (script.request.Ok? && WaitOutcome(script.polls).Raised? && WaitOutcome(script.polls).e.ApiCallError? ==>
            d.outcome == Reported(WaitOutcome(script.polls).e))
      && (d.outcome == Propagated(IndexError) <==> script.request.Ok? && WaitOutcome(script.polls) == Raised(IndexError))
      && (d.outcome == Deleted || d.outcome.Reported? <==>
            script.request.Failed? || (WaitOutcome(script.polls) != Raised(IndexError) && WaitOutcome(script.polls) != Polling))
  {
  }
}
