/**
 * The payment return page (src/pages/PaymentSuccess.jsx): it polls the checkout
 * session's status until the payment is paid (success), expired or the request
 * fails (failed), re-polling a pending session while fewer than five attempts
 * have been made.
 *
 * The page passes to each check the attempt count the check reads. In the
 * source every re-poll runs the function captured by the first render, which
 * always reads the initial count 0, so the five-attempt bound never takes effect:
 * `StalePollingIsUnbounded` shows this, and `IntendedPollingIsBounded` proves the
 * bound for the reading the page is evidently meant to have. `Page` has the
 * timer both ways: `OnPollTimer` as written, `OnPollTimerIntended` as meant.
 */
module PaymentSuccess {
  import opened Wrappers
  import opened Http
  import opened Bookings

  const MaxAttempts := 5
  /** The attempt count of the first render, the one every re-poll of the source reads. */
  const InitialAttempts := 0
  const Expired := "expired"

  datatype PayStatus = Checking | Succeeded | Failed

  /** The fields of `/payments/status/{session_id}` the page reads. */
  datatype StatusReply = StatusReply(paymentStatus: string, status: string)

  /** What one check decides: the status to show and whether to poll again. */
  datatype Decision = Decision(status: PayStatus, pollAgain: bool)

  /** A reply that is neither paid nor expired. */
  predicate IsPending(reply: Outcome<StatusReply>) {
    reply.Ok? && reply.value.paymentStatus != Paid && reply.value.status != Expired
  }

  /**
   * One check, given the attempt count it reads: paid wins over expired, any
   * request error fails, and a pending session is polled again only below the
   * bound; exhausting the bound leaves the page checking, never failed.
   */
  function Decide(attemptsSeen: nat, reply: Outcome<StatusReply>): (d: Decision)
    ensures reply.Ok? && reply.value.paymentStatus == Paid ==> d == Decision(Succeeded, false)
    ensures d.status == Failed <==> reply.Err? || (reply.value.paymentStatus != Paid && reply.value.status == Expired)
    ensures d.status == Checking <==> IsPending(reply)
    ensures d.pollAgain <==> IsPending(reply) && attemptsSeen < MaxAttempts
  {
    match reply
    case Err(_) => Decision(Failed, false)
    case Ok(r) =>
      if r.paymentStatus == Paid then Decision(Succeeded, false)
      else if r.status == Expired then Decision(Failed, false)
      else Decision(Checking, attemptsSeen < MaxAttempts)
  }

  /** Success and failure are final: neither schedules another poll. */
  lemma TerminalStatusesStopPolling(attemptsSeen: nat, reply: Outcome<StatusReply>)
    ensures Decide(attemptsSeen, reply).status != Checking ==> !Decide(attemptsSeen, reply).pollAgain
  {
  }

  /**
   * How many checks run from check number `k` on, when check `k` reads the count
   * `k` (`stale` false) or the first render's 0 (`stale` true), the answers being
   * `replies`; the model stops when the answers run out.
   */
  function ChecksFrom(replies: seq<Outcome<StatusReply>>, k: nat, stale: bool): (n: nat)
    ensures k <= |replies| ==> n <= |replies| - k
    decreases |replies| - k
  {
    if k >= |replies| then 0
    else
      var d := Decide(if stale then 0 else k, replies[k]);
      1 + (if d.pollAgain then ChecksFrom(replies, k + 1, stale) else 0)
  }

  /** With the count read afresh, at most `MaxAttempts + 1` checks run, whatever the answers. */
  lemma {:induction false} IntendedPollingIsBounded(replies: seq<Outcome<StatusReply>>, k: nat)
    requires k <= MaxAttempts
    ensures ChecksFrom(replies, k, false) <= MaxAttempts + 1 - k
    decreases MaxAttempts - k
  {
    if k < |replies| && k < MaxAttempts {
      IntendedPollingIsBounded(replies, k + 1);
    }
  }

  /** A session that stays pending: `n` pending answers. */
  function AllPending(n: nat): (s: seq<Outcome<StatusReply>>)
    ensures |s| == n && forall i :: 0 <= i < n ==> IsPending(s[i])
  {
    seq(n, _ => Ok(StatusReply("unpaid", "open")))
  }

  /** As written, a pending session is checked once per answer: the bound never stops the polling. */
  lemma {:induction false} StalePollingIsUnbounded(n: nat, k: nat)
    requires k <= n
    ensures ChecksFrom(AllPending(n), k, true) == n - k
    decreases n - k
  {
    if k < n {
      StalePollingIsUnbounded(n, k + 1);
    }
  }

  /** Seven pending answers: seven checks as written, six with the bound working. */
  lemma StalePollingExceedsBound()
    ensures ChecksFrom(AllPending(7), 0, true) == 7
    ensures ChecksFrom(AllPending(7), 0, false) == MaxAttempts + 1
  {
    StalePollingIsUnbounded(7, 0);
    var p := AllPending(7);
    assert ChecksFrom(p, 5, false) == 1;
    assert ChecksFrom(p, 4, false) == 2;
    assert ChecksFrom(p, 3, false) == 3;
    assert ChecksFrom(p, 2, false) == 4;
    assert ChecksFrom(p, 1, false) == 5;
  }

  /** The page's state: the shown status, the attempt count and whether a poll is pending. */
  class Page {
    var status: PayStatus
    var attempts: nat
    var pollScheduled: bool

    constructor ()
      ensures status == Checking && attempts == InitialAttempts && !pollScheduled
    {
      status := Checking;
      attempts := InitialAttempts;
      pollScheduled := false;
    }

    /** `checkPaymentStatus`, reading the attempt count `attemptsSeen`. */
    method CheckPaymentStatus(attemptsSeen: nat, reply: Outcome<StatusReply>)
      modifies this`status, this`pollScheduled
      ensures var d := Decide(attemptsSeen, reply);
              && status == (if d.pollAgain then old(status) else d.status)
              && pollScheduled == (old(pollScheduled) || d.pollAgain)
    {
      match reply {
        case Err(_) =>
          status := Failed;
        case Ok(r) =>
          if r.paymentStatus == Paid {
            status := Succeeded;
            return;
          } else if r.status == Expired {
            status := Failed;
            return;
          }
          if attemptsSeen < MaxAttempts {
            pollScheduled := true;
          } else {
            status := Checking;
          }
      }
    }

    /** The mount effect: check only when the URL carries a non-empty `session_id`. */
    method Mount(sessionId: Option<string>, reply: Outcome<StatusReply>) returns (checked: bool)
      modifies this`status, this`pollScheduled
      ensures checked <==> sessionId.Some? && sessionId.value != ""
      ensures !checked ==> status == old(status) && pollScheduled == old(pollScheduled)
      ensures checked ==> var d := Decide(attempts, reply);
                          && status == (if d.pollAgain then old(status) else d.status)
                          && pollScheduled == (old(pollScheduled) || d.pollAgain)
    {
      if sessionId.None? || sessionId.value == "" {
        return false;
      }
      CheckPaymentStatus(attempts, reply);
      return true;
    }

    /**
     * The poll timer fires, as written: the attempt is counted, but the check
     * that follows is the first render's and reads `InitialAttempts`, so a
     * pending session is always polled again.
     */
    method OnPollTimer(reply: Outcome<StatusReply>)
      requires pollScheduled
      modifies this
      ensures attempts == old(attempts) + 1
      ensures var d := Decide(InitialAttempts, reply);
              && status == (if d.pollAgain then old(status) else d.status)
              && pollScheduled == d.pollAgain
      ensures IsPending(reply) ==> pollScheduled
    {
      pollScheduled := false;
      attempts := attempts + 1;
      CheckPaymentStatus(InitialAttempts, reply);
    }

    /** The poll timer fires, as intended: count the attempt and check again, reading the current count. */
    method OnPollTimerIntended(reply: Outcome<StatusReply>)
      requires pollScheduled
      modifies this
      ensures attempts == old(attempts) + 1
      ensures var d := Decide(attempts, reply);
              && status == (if d.pollAgain then old(status) else d.status)
              && pollScheduled == d.pollAgain
      ensures IsPending(reply) ==> (pollScheduled <==> attempts < MaxAttempts)
    {
      pollScheduled := false;
      attempts := attempts + 1;
      CheckPaymentStatus(attempts, reply);
    }
  }
}
