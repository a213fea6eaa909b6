/**
 * `send_post`: posts one channel's message and interprets the reply, retrying
 * rate-limited (429) replies after a back-off sleep, at most three requests in
 * all. The HTTP call is replaced by a sequence of replies, one per request the
 * loop may make, and each `time.sleep` by an entry in a trace of durations.
 */
module Dispatcher {
  import opened Wrappers

  /** `max_message_retry`. */
  const MaxAttempts: nat := 3

  /** Discord's 429 sub-codes the source treats specially. */
  const SlowmodeCode: int := 20016
  const WriteLimitCode: int := 20028

  /** Defaults of `retry_data.get("retry_after", 20)` and `retry_data.get("code", 0)`. */
  const DefaultRetryAfter: real := 20.0
  const DefaultCode: int := 0

  /** Above this reported wait the slowmode and write-limit branches sleep exactly this long. */
  const LongWaitCap: real := 300.0
  /** Safety margin added to the reported wait. */
  const WaitMargin: real := 20.0
  /** Least sleep on the write limit. */
  const WriteLimitFloor: real := 60.0

  /**
   * Longest duration `time.sleep` accepts: CPython converts it to signed
   * 64-bit nanoseconds and raises OverflowError beyond 2^63 - 1 of them.
   */
  const MaxSleep: real := 9223372036.854775807

  /** Durations `time.sleep` sleeps; it raises ValueError below zero and OverflowError above MaxSleep. */
  predicate Sleepable(d: real)
  {
    0.0 <= d <= MaxSleep
  }

  /**
   * The body of a 429 reply as `res.json()` and `.get` see it. `Unparseable`
   * stands for every body on which that code raises inside the `try`: text
   * that is not JSON, JSON that is not an object, and a `retry_after` that is
   * not a number. `None` in a field means the key is absent.
   */
  datatype Body = Unparseable | Fields(retryAfter: Option<real>, code: Option<int>)

  /** What `requests.post` produces: an exception, or a status code and a body. */
  datatype Reply = TransportError | Response(status: int, body: Body)

  /** `True`, `"Forbidden"`, `sys.exit(1)` and `None`. */
  datatype Outcome = Sent | Forbidden | Fatal | Failed

  /** What one request leads to: the call ends with an outcome, or it sleeps and retries. */
  datatype Step = Done(outcome: Outcome) | Wait(seconds: real)

  /** The whole call: its outcome, how many requests it made, and the sleeps between them. */
  datatype DispatchResult = DispatchResult(outcome: Outcome, requests: nat, sleeps: seq<real>)

  function Max(a: real, b: real): real { if a >= b then a else b }

  /**
   * The sleep the 429 branch asks for, per sub-code. Slowmode and the write
   * limit sleep exactly 300 seconds when more than 300 is reported; below
   * that slowmode adds the 20-second margin and the write limit sleeps at
   * least 60 seconds. Any other sub-code adds the margin with no cap.
   */
  function RetryDelay(code: int, retryAfter: real): (d: real)
    ensures retryAfter <= LongWaitCap ==> d >= retryAfter
    ensures code == SlowmodeCode ==> d <= LongWaitCap + WaitMargin
    ensures code == WriteLimitCode ==> WriteLimitFloor <= d <= LongWaitCap
    ensures code == SlowmodeCode && retryAfter <= LongWaitCap ==> d == retryAfter + WaitMargin
    ensures code == WriteLimitCode && retryAfter <= LongWaitCap ==> d == Max(retryAfter, WriteLimitFloor)
    ensures (code == SlowmodeCode || code == WriteLimitCode) && retryAfter > LongWaitCap ==> d == LongWaitCap
    ensures code != SlowmodeCode && code != WriteLimitCode ==> d == retryAfter + WaitMargin
  {
    if code == SlowmodeCode then
      if retryAfter > LongWaitCap then LongWaitCap else retryAfter + WaitMargin
    else if code == WriteLimitCode then
      if retryAfter > LongWaitCap then LongWaitCap else Max(retryAfter, WriteLimitFloor)
    else
      retryAfter + WaitMargin
  }

  /**
   * The reply to one request, classified. A sleep `time.sleep` refuses
   * (negative, or too long) raises inside the 429 `try`, so it ends the call
   * like an unparseable body.
   */
  function Classify(reply: Reply): (s: Step)
    ensures s == Done(Sent) <==> reply.Response? && reply.status == 200
    ensures s == Done(Fatal) <==> reply.Response? && reply.status == 401
    ensures s == Done(Forbidden) <==> reply.Response? && reply.status == 403
    ensures s.Wait? <==> reply.Response? && reply.status == 429 && reply.body.Fields?
                         && Sleepable(RetryDelay(reply.body.code.GetOr(DefaultCode),
                                                 reply.body.retryAfter.GetOr(DefaultRetryAfter)))
    ensures s.Wait? ==> s.seconds == RetryDelay(reply.body.code.GetOr(DefaultCode),
                                                 reply.body.retryAfter.GetOr(DefaultRetryAfter))
  {
    match reply
    case TransportError => Done(Failed)
    case Response(status, body) =>
      if status == 200 then Done(Sent)
      else if status == 401 then Done(Fatal)
      else if status == 403 then Done(Forbidden)
      else if status == 429 then
        match body
        case Unparseable => Done(Failed)
        case Fields(retryAfter, code) =>
          var d := RetryDelay(code.GetOr(DefaultCode), retryAfter.GetOr(DefaultRetryAfter));
          if !Sleepable(d) then Done(Failed) else Wait(d)
      else Done(Failed)
  }

  /** `sleeps` happened before the rest of the call, which produced `r`. */
  function After(sleeps: seq<real>, r: DispatchResult): DispatchResult
  {
    DispatchResult(r.outcome, |sleeps| + r.requests, sleeps + r.sleeps)
  }

  /** The call with `budget` attempts left, `replies[0]` answering the next request. */
  function Run(replies: seq<Reply>, budget: nat): DispatchResult
    requires |replies| >= budget
  {
    if budget == 0 then DispatchResult(Failed, 0, [])
    else
      match Classify(replies[0])
      case Done(outcome) => DispatchResult(outcome, 1, [])
      case Wait(d) => After([d], Run(replies[1..], budget - 1))
  }

  /** The specification of `send_post`. */
  function Dispatch(replies: seq<Reply>): DispatchResult
    requires |replies| >= MaxAttempts
  {
    Run(replies, MaxAttempts)
  }

  /**
   * `r` is the result of a call on `replies` with `budget` attempts: its
   * sleeps are the waits the first replies ask for, and the call either ended
   * on the reply after them or used up its budget on waits alone.
   */
  ghost predicate Explains(replies: seq<Reply>, budget: nat, r: DispatchResult)
    requires |replies| >= budget
  {
    |r.sleeps| <= budget
    && (forall k :: 0 <= k < |r.sleeps| ==> Classify(replies[k]) == Wait(r.sleeps[k]))
    && ((|r.sleeps| < budget && r.requests == |r.sleeps| + 1
         && Classify(replies[|r.sleeps|]) == Done(r.outcome))
        || (|r.sleeps| == budget && r.requests == budget && r.outcome == Failed))
  }

  lemma {:induction false} RunExplained(replies: seq<Reply>, budget: nat)
    requires |replies| >= budget
    ensures Explains(replies, budget, Run(replies, budget))
  {
    if budget > 0 && Classify(replies[0]).Wait? {
      RunExplained(replies[1..], budget - 1);
      var r := Run(replies, budget);
      var rest := Run(replies[1..], budget - 1);
      forall k | 0 <= k < |r.sleeps| ensures Classify(replies[k]) == Wait(r.sleeps[k]) {
        if k > 0 { assert r.sleeps[k] == rest.sleeps[k - 1] && replies[k] == replies[1..][k - 1]; }
      }
      if |rest.sleeps| < budget - 1 {
        assert replies[|r.sleeps|] == replies[1..][|rest.sleeps|];
      }
    }
  }

  /** Explains determines the result: at most one result explains the replies. */
  lemma ExplainsUnique(replies: seq<Reply>, budget: nat, r1: DispatchResult, r2: DispatchResult)
    requires |replies| >= budget
    requires Explains(replies, budget, r1) && Explains(replies, budget, r2)
    ensures r1 == r2
  {
    var n1, n2 := |r1.sleeps|, |r2.sleeps|;
    if n1 == n2 {
      forall k | 0 <= k < n1 ensures r1.sleeps[k] == r2.sleeps[k] {
        assert Classify(replies[k]) == Wait(r1.sleeps[k]);
      }
    }
  }

  /**
   * The behaviour of `send_post`, stated without the recursion: a result is
   * the dispatch of `replies` exactly when it is explained by them.
   */
  lemma DispatchCharacterized(replies: seq<Reply>, r: DispatchResult)
    requires |replies| >= MaxAttempts
    ensures r == Dispatch(replies) <==> Explains(replies, MaxAttempts, r)
  {
    RunExplained(replies, MaxAttempts);
    if Explains(replies, MaxAttempts, r) {
      ExplainsUnique(replies, MaxAttempts, r, Dispatch(replies));
    }
  }

  /**
   * At most three requests and three sleeps; a call that sleeps three times
   * has made its third and last request and gives up.
   */
  lemma DispatchBounded(replies: seq<Reply>)
    requires |replies| >= MaxAttempts
    ensures var r := Dispatch(replies);
      1 <= r.requests <= MaxAttempts && |r.sleeps| <= MaxAttempts
      && (r.requests == |r.sleeps| + 1 || (r.requests == |r.sleeps| == MaxAttempts && r.outcome == Failed))
  {
    RunExplained(replies, MaxAttempts);
  }

  /**
   * The first reply alone decides the call unless it is a retryable 429:
   * 200 sends, 403 is forbidden, 401 ends the process, and a transport error,
   * an unparseable 429 or any other status fails, each after one request.
   */
  lemma FirstReplyDecides(replies: seq<Reply>)
    requires |replies| >= MaxAttempts
    requires Classify(replies[0]).Done?
    ensures Dispatch(replies) == DispatchResult(Classify(replies[0]).outcome, 1, [])
    ensures replies[0].TransportError? ==> Dispatch(replies).outcome == Failed
    ensures replies[0].Response? && replies[0].status !in {200, 401, 403, 429} ==> Dispatch(replies).outcome == Failed
  {
  }

  /** Every sleep of the call is a duration `time.sleep` accepts. */
  lemma DispatchSleepsAccepted(replies: seq<Reply>)
    requires |replies| >= MaxAttempts
    ensures forall k :: 0 <= k < |Dispatch(replies).sleeps| ==> Sleepable(Dispatch(replies).sleeps[k])
  {
    RunExplained(replies, MaxAttempts);
  }

  /** A slowmode of exactly 300 seconds sleeps 320: the 300-second cap is not an upper bound. */
  lemma SlowmodeCapIsNotABound()
    ensures RetryDelay(SlowmodeCode, 300.0) == 320.0
    ensures RetryDelay(SlowmodeCode, 301.0) == 300.0
  {
  }

  /**
   * Three slowmode replies reporting 1000 seconds: three 300-second sleeps,
   * three requests, and the call fails.
   */
  lemma LongSlowmodeGivesUp(replies: seq<Reply>)
    requires |replies| >= MaxAttempts
    requires forall k :: 0 <= k < MaxAttempts ==> replies[k] == Response(429, Fields(Some(1000.0), Some(SlowmodeCode)))
    ensures Dispatch(replies) == DispatchResult(Failed, 3, [300.0, 300.0, 300.0])
  {
    var sleeps := [LongWaitCap, LongWaitCap, LongWaitCap];
    assert forall k :: 0 <= k < |sleeps| ==> Classify(replies[k]) == Wait(sleeps[k]);
    DispatchExhausted(replies, sleeps);
  }

  /**
   * A rate-limit reply with an unrecognised sub-code reporting ten billion
   * seconds asks for a sleep `time.sleep` refuses: the call fails after that
   * one request, without sleeping and without retrying.
   */
  lemma HugeWaitFails(replies: seq<Reply>)
    requires |replies| >= MaxAttempts
    requires replies[0] == Response(429, Fields(Some(10000000000.0), None))
    ensures Dispatch(replies) == DispatchResult(Failed, 1, [])
  {
  }

  /** A call that waited `sleeps` and then met a reply that ends it. */
  lemma DispatchEndsAfter(replies: seq<Reply>, sleeps: seq<real>, outcome: Outcome)
    requires |replies| >= MaxAttempts && |sleeps| < MaxAttempts
    requires forall k :: 0 <= k < |sleeps| ==> Classify(replies[k]) == Wait(sleeps[k])
    requires Classify(replies[|sleeps|]) == Done(outcome)
    ensures Dispatch(replies) == DispatchResult(outcome, |sleeps| + 1, sleeps)
  {
    DispatchCharacterized(replies, DispatchResult(outcome, |sleeps| + 1, sleeps));
  }

  /** A call whose every attempt was a retryable 429. */
  lemma DispatchExhausted(replies: seq<Reply>, sleeps: seq<real>)
    requires |replies| >= MaxAttempts && |sleeps| == MaxAttempts
    requires forall k :: 0 <= k < |sleeps| ==> Classify(replies[k]) == Wait(sleeps[k])
    ensures Dispatch(replies) == DispatchResult(Failed, MaxAttempts, sleeps)
  {
    DispatchCharacterized(replies, DispatchResult(Failed, MaxAttempts, sleeps));
  }

  /**
   * `send_post` as written: the `while attempts < max_message_retry` loop,
   * with `return` for 200 and 403, `sys.exit` for 401, `break` for transport
   * errors, unparseable 429 bodies and other statuses, and `continue` after a
   * capped sleep. `replies[i]` answers the i-th request.
   */
  method SendPost(replies: seq<Reply>) returns (outcome: Outcome, requests: nat, sleeps: seq<real>)
    requires |replies| >= MaxAttempts
    ensures DispatchResult(outcome, requests, sleeps) == Dispatch(replies)
  {
    var attempts := 0;
    requests, sleeps := 0, [];
    while attempts < MaxAttempts
      invariant attempts <= MaxAttempts
      invariant requests == attempts == |sleeps|
      invariant forall k :: 0 <= k < attempts ==> Classify(replies[k]) == Wait(sleeps[k])
    {
      var reply := replies[attempts];
      ghost var step := Classify(reply);
      requests := requests + 1;
      if reply.TransportError? {
        break;
      }
      var status := reply.status;
      if status == 200 {
        outcome := Sent;
        DispatchEndsAfter(replies, sleeps, outcome);
        return;
      } else if status == 401 {
        outcome := Fatal;
        DispatchEndsAfter(replies, sleeps, outcome);
        return;
      } else if status == 403 {
        outcome := Forbidden;
        DispatchEndsAfter(replies, sleeps, outcome);
        return;
      } else if status == 429 {
        if reply.body.Unparseable? {
          break;
        }
        var retryAfter := reply.body.retryAfter.GetOr(DefaultRetryAfter);
        var code := reply.body.code.GetOr(DefaultCode);
        if code == SlowmodeCode {
          if retryAfter > LongWaitCap {
            sleeps := sleeps + [LongWaitCap];
            attempts := attempts + 1;
            continue;
          }
          attempts := attempts + 1;
          if !Sleepable(retryAfter + WaitMargin) {
            break;  // time.sleep raises ValueError or OverflowError
          }
          sleeps := sleeps + [retryAfter + WaitMargin];
        } else if code == WriteLimitCode {
          var longWait := Max(retryAfter, WriteLimitFloor);
          if retryAfter > LongWaitCap {
            sleeps := sleeps + [LongWaitCap];
            attempts := attempts + 1;
            continue;
          }
          attempts := attempts + 1;
          sleeps := sleeps + [longWait];
        } else {
          attempts := attempts + 1;
          if !Sleepable(retryAfter + WaitMargin) {
            break;  // time.sleep raises ValueError or OverflowError
          }
          sleeps := sleeps + [retryAfter + WaitMargin];
        }
      } else {
        break;
      }
    }
    outcome := Failed;
    if requests == |sleeps| + 1 {
      DispatchEndsAfter(replies, sleeps, outcome);
    } else {
      DispatchExhausted(replies, sleeps);
    }
  }
}
