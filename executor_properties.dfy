/** What the executor of src/services/facebookApi.ts promises, proved
    about its specification `Execute` (and so, through `RetryLoop`'s and
    `MakeRequest`'s contracts, about the executor itself). */
module ExecutorProperties {
  import opened Common
  import opened RequestExecutor

  /** The step `s` ends the call with result `r`. */
  ghost predicate Ends<P>(s: Step<P>, r: Result<Body<P>>)
  {
    match s
    case Return(b) => r == Ok(b)
    case Throw(m) => r == Err(m)
    case Wait(_) => false
  }

  /** `t` is a run of a call with budget `retries` over `outcomes`: with no
      budget, nothing is dispatched and the exhaustion error is thrown;
      otherwise every attempt but the last chose to wait, for exactly the
      recorded time, and the last attempt returned or threw the result. */
  ghost predicate Explains<P>(verb: Verb, outcomes: seq<Outcome<P>>, retries: int, t: Trace<P>)
    requires retries <= |outcomes|
  {
    if retries <= 0 then t == Trace(Err(ExhaustedMessage), [], 0)
    else
      && 1 <= t.attempts <= retries
      && |t.waits| == t.attempts - 1
      && (forall i :: 0 <= i < |t.waits| ==> AttemptStep(verb, outcomes[i], i, retries) == Wait(t.waits[i]))
      && Ends(AttemptStep(verb, outcomes[t.attempts - 1], t.attempts - 1, retries), t.result)
  }

  /** The last attempt never waits: each branch that would retry is guarded
      by `attempt < retries - 1`. */
  lemma LastAttemptNeverWaits<P>(verb: Verb, o: Outcome<P>, retries: int)
    requires retries >= 1
    ensures !AttemptStep(verb, o, retries - 1, retries).Wait?
  {
  }

  lemma {:induction false} RunExplained<P>(verb: Verb, outcomes: seq<Outcome<P>>, retries: int, k: nat, waits: seq<nat>)
    requires retries <= |outcomes| && k < retries && |waits| == k
    requires forall i :: 0 <= i < k ==> AttemptStep(verb, outcomes[i], i, retries) == Wait(waits[i])
    ensures var t := Run(verb, outcomes, retries, k, waits);
      && k < t.attempts <= retries
      && |t.waits| == t.attempts - 1
      && t.waits[..k] == waits
      && (forall i :: 0 <= i < |t.waits| ==> AttemptStep(verb, outcomes[i], i, retries) == Wait(t.waits[i]))
      && Ends(AttemptStep(verb, outcomes[t.attempts - 1], t.attempts - 1, retries), t.result)
    decreases retries - k
  {
    var s := AttemptStep(verb, outcomes[k], k, retries);
    if s.Wait? {
      if k == retries - 1 {
        LastAttemptNeverWaits(verb, outcomes[k], retries);
      }
      var waits' := waits + [s.ms];
      assert Run(verb, outcomes, retries, k, waits) == Run(verb, outcomes, retries, k + 1, waits');
      RunExplained(verb, outcomes, retries, k + 1, waits');
      var t := Run(verb, outcomes, retries, k + 1, waits');
      assert t.waits[..k] == t.waits[..k + 1][..k];
    } else {
      var t := Run(verb, outcomes, retries, k, waits);
      assert t.waits == waits && t.attempts == k + 1;
      assert Ends(s, t.result);
    }
  }

  /** Every run of the executor has the shape `Explains` describes. In
      particular the exhaustion error is thrown only when `retries <= 0`,
      and at most `retries` attempts are made. */
  lemma ExecuteExplained<P>(verb: Verb, outcomes: seq<Outcome<P>>, retries: int)
    requires retries <= |outcomes|
    ensures Explains(verb, outcomes, retries, Execute(verb, outcomes, retries))
  {
    if retries > 0 {
      RunExplained(verb, outcomes, retries, 0, []);
    }
  }

  lemma {:induction false} RunUnique<P>(verb: Verb, outcomes: seq<Outcome<P>>, retries: int, k: nat, waits: seq<nat>, t: Trace<P>)
    requires retries <= |outcomes| && retries >= 1
    requires Explains(verb, outcomes, retries, t)
    requires k < t.attempts && |waits| == k && t.waits[..k] == waits
    ensures Run(verb, outcomes, retries, k, waits) == t
    decreases t.attempts - k
  {
    if k == t.attempts - 1 {
      assert t.waits == t.waits[..k];
    } else {
      assert AttemptStep(verb, outcomes[k], k, retries) == Wait(t.waits[k]);
      assert t.waits[..k + 1] == waits + [t.waits[k]];
      RunUnique(verb, outcomes, retries, k + 1, waits + [t.waits[k]], t);
    }
  }

  /** Conversely, the shape determines the run: `Execute` is the only trace
      that `Explains` the outcomes. */
  lemma ExplainedIsExecute<P>(verb: Verb, outcomes: seq<Outcome<P>>, retries: int, t: Trace<P>)
    requires retries <= |outcomes|
    requires Explains(verb, outcomes, retries, t)
    ensures t == Execute(verb, outcomes, retries)
  {
    if retries > 0 {
      RunUnique(verb, outcomes, retries, 0, [], t);
    }
  }

  /** Attempts are made only when the budget allows one. */
  lemma NoAttemptIffNoBudget<P>(verb: Verb, outcomes: seq<Outcome<P>>, retries: int)
    requires retries <= |outcomes|
    ensures var t := Execute(verb, outcomes, retries);
      && (t.attempts == 0 <==> retries <= 0)
      && (retries <= 0 ==> t.result == Err(ExhaustedMessage))
      && t.attempts <= if retries < 0 then 0 else retries
  {
    ExecuteExplained(verb, outcomes, retries);
  }

  lemma StepMessagesNonEmpty<P>(verb: Verb, o: Outcome<P>, attempt: nat, retries: int)
    ensures AttemptStep(verb, o, attempt, retries).Throw? ==> AttemptStep(verb, o, attempt, retries).message != ""
  {
    match o
    case Delivered(body) =>
      if body.error.Some? {
        var m := EmbeddedErrorMessage(body.error.value);
        assert m != "";
      }
    case Rejected(f) =>
  }

  /** A call that fails always fails with a non-empty message, and a call
      that succeeds returns a body without an embedded error, one of those
      the transport delivered. */
  lemma ResultsAreNormalised<P>(verb: Verb, outcomes: seq<Outcome<P>>, retries: int)
    requires retries <= |outcomes|
    ensures var r := Execute(verb, outcomes, retries).result;
      && (r.Err? ==> r.message != "")
      && (r.Ok? ==> r.value.error.None? && exists i :: 0 <= i < |outcomes| && outcomes[i] == Delivered(r.value))
  {
    ExecuteExplained(verb, outcomes, retries);
    var t := Execute(verb, outcomes, retries);
    if retries > 0 {
      var last := t.attempts - 1;
      StepMessagesNonEmpty(verb, outcomes[last], last, retries);
      if t.result.Ok? {
        assert outcomes[last] == Delivered(t.result.value);
      }
    }
  }

  /** A body without an embedded error on the first attempt is returned
      unchanged, after one attempt and no wait. */
  lemma SuccessReturnedUnchanged<P>(verb: Verb, outcomes: seq<Outcome<P>>, retries: int)
    requires 1 <= retries <= |outcomes|
    requires outcomes[0].Delivered? && outcomes[0].body.error.None?
    ensures Execute(verb, outcomes, retries) == Trace(Ok(outcomes[0].body), [], 1)
  {
  }

  /** A 401 response makes one attempt and throws the token message at
      once, whatever its body says; only a 429 status is checked before it. */
  lemma UnauthorizedFailsAtOnce<P>(verb: Verb, outcomes: seq<Outcome<P>>, retries: int)
    requires 1 <= retries <= |outcomes|
    requires outcomes[0].Rejected? && StatusOf(outcomes[0].failure) == Some(401)
    ensures Execute(verb, outcomes, retries) == Trace(Err(TokenMessage), [], 1)
  {
  }

  predicate IsRateLimited<P>(o: Outcome<P>)
  {
    o.Rejected? && StatusOf(o.failure) == Some(429)
  }

  /** When every attempt gets HTTP 429, all `retries` attempts are made,
      waiting 2^i seconds after attempt i, and the rate-limit message is
      thrown at the end. */
  lemma AlwaysRateLimited<P>(verb: Verb, outcomes: seq<Outcome<P>>, retries: int)
    requires 1 <= retries <= |outcomes|
    requires forall i :: 0 <= i < retries ==> IsRateLimited(outcomes[i])
    ensures var t := Execute(verb, outcomes, retries);
      && t.attempts == retries
      && t.result == Err(RateLimitMessage)
      && |t.waits| == retries - 1
      && forall i :: 0 <= i < |t.waits| ==> t.waits[i] == Pow2(i) * 1000
  {
    ExecuteExplained(verb, outcomes, retries);
    var t := Execute(verb, outcomes, retries);
    var last := t.attempts - 1;
    assert IsRateLimited(outcomes[last]);
    forall i | 0 <= i < |t.waits|
      ensures t.waits[i] == Pow2(i) * 1000
    {
      assert IsRateLimited(outcomes[i]);
      assert AttemptStep(verb, outcomes[i], i, retries) == Wait(t.waits[i]);
    }
  }

  /** With the default budget of three and HTTP 429 throughout: three
      attempts, waits of one then two seconds. */
  lemma ThreeRateLimits<P>(verb: Verb, outcomes: seq<Outcome<P>>)
    requires |outcomes| >= DefaultRetries
    requires forall i :: 0 <= i < DefaultRetries ==> IsRateLimited(outcomes[i])
    ensures Execute(verb, outcomes, DefaultRetries) == Trace(Err(RateLimitMessage), [1000, 2000], 3)
  {
    AlwaysRateLimited(verb, outcomes, DefaultRetries);
    var t := Execute(verb, outcomes, DefaultRetries);
    assert t.waits == [Pow2(0) * 1000, Pow2(1) * 1000];
  }

  /** A transport timeout (ECONNABORTED or ETIMEDOUT without a 429 or 401
      status). */
  predicate IsTimeout<P>(o: Outcome<P>)
  {
    o.Rejected? && IsTimeoutCode(o.failure.code) && StatusOf(o.failure) != Some(429) && StatusOf(o.failure) != Some(401)
  }

  /** Timeouts on the first `k` attempts and a clean body on attempt `k`
      (within the budget): the body is returned after `k + 1` attempts,
      with linear waits of 1, 2, … seconds. */
  lemma TimeoutsThenSuccess<P>(verb: Verb, outcomes: seq<Outcome<P>>, retries: int, k: nat)
    requires k < retries <= |outcomes|
    requires forall i :: 0 <= i < k ==> IsTimeout(outcomes[i])
    requires outcomes[k].Delivered? && outcomes[k].body.error.None?
    ensures var t := Execute(verb, outcomes, retries);
      && t.result == Ok(outcomes[k].body)
      && t.attempts == k + 1
      && |t.waits| == k
      && forall i :: 0 <= i < k ==> t.waits[i] == 1000 * (i + 1)
  {
    ExecuteExplained(verb, outcomes, retries);
    var t := Execute(verb, outcomes, retries);
    forall i | 0 <= i < k
      ensures t.waits[i] == 1000 * (i + 1)
    {
      assert IsTimeout(outcomes[i]);
      assert AttemptStep(verb, outcomes[i], i, retries) == Wait(t.waits[i]);
    }
  }

  /** Two timeouts, then a clean body, with the default budget: returned
      after three attempts, waits of one then two seconds. */
  lemma TwoTimeoutsThenSuccess<P>(verb: Verb, timeout1: Outcome<P>, timeout2: Outcome<P>, body: Body<P>)
    requires IsTimeout(timeout1) && IsTimeout(timeout2) && body.error.None?
    ensures Execute(verb, [timeout1, timeout2, Delivered(body)], DefaultRetries)
         == Trace(Ok(body), [1000, 2000], 3)
  {
    var outcomes := [timeout1, timeout2, Delivered(body)];
    TimeoutsThenSuccess(verb, outcomes, DefaultRetries, 2);
  }

  /** When every attempt times out, all `retries` attempts are made,
      waiting i + 1 seconds after attempt i, and the timeout message is
      thrown at the end. */
  lemma AlwaysTimedOut<P>(verb: Verb, outcomes: seq<Outcome<P>>, retries: int)
    requires 1 <= retries <= |outcomes|
    requires forall i :: 0 <= i < retries ==> IsTimeout(outcomes[i])
    ensures var t := Execute(verb, outcomes, retries);
      && t.attempts == retries
      && t.result == Err(TimeoutMessage)
      && |t.waits| == retries - 1
      && forall i :: 0 <= i < |t.waits| ==> t.waits[i] == 1000 * (i + 1)
  {
    ExecuteExplained(verb, outcomes, retries);
    var t := Execute(verb, outcomes, retries);
    assert IsTimeout(outcomes[t.attempts - 1]);
    forall i | 0 <= i < |t.waits|
      ensures t.waits[i] == 1000 * (i + 1)
    {
      assert IsTimeout(outcomes[i]);
      assert AttemptStep(verb, outcomes[i], i, retries) == Wait(t.waits[i]);
    }
  }

  /** An HTTP failure whose body carries an `error` (status neither 429
      nor 401, no timeout code) throws that error's message, or the verb's
      fallback, after one attempt and no wait. */
  lemma ErrorBodyFailsAtOnce<P>(verb: Verb, outcomes: seq<Outcome<P>>, retries: int)
    requires 1 <= retries <= |outcomes|
    requires outcomes[0].Rejected?
    requires var f := outcomes[0].failure;
      && f.response.Some? && f.response.value.status != 429 && f.response.value.status != 401
      && !IsTimeoutCode(f.code) && f.response.value.errorMessage.Some?
    ensures Execute(verb, outcomes, retries)
         == Trace(Err(Or(outcomes[0].failure.response.value.errorMessage.value, ErrorBodyFallback(verb))), [], 1)
  {
  }

  /** A failure that no earlier branch of the `catch` takes: no 429 or 401
      status, no timeout code, and no `error` in a response body. */
  predicate IsGenericFailure<P>(o: Outcome<P>)
  {
    && o.Rejected?
    && StatusOf(o.failure) != Some(429) && StatusOf(o.failure) != Some(401)
    && !IsTimeoutCode(o.failure.code)
    && (o.failure.response.None? || o.failure.response.value.errorMessage.None?)
  }

  /** When every attempt fails generically, all `retries` attempts are
      made with linear waits, and the last failure's own message (or the
      unexpected-error message when it has none) is thrown. */
  lemma GenericFailureRetried<P>(verb: Verb, outcomes: seq<Outcome<P>>, retries: int)
    requires 1 <= retries <= |outcomes|
    requires forall i :: 0 <= i < retries ==> IsGenericFailure(outcomes[i])
    ensures var t := Execute(verb, outcomes, retries);
      && t.attempts == retries
      && outcomes[retries - 1].Rejected?
      && t.result == Err(Or(outcomes[retries - 1].failure.message, UnexpectedMessage))
      && |t.waits| == retries - 1
      && forall i :: 0 <= i < |t.waits| ==> t.waits[i] == 1000 * (i + 1)
  {
    ExecuteExplained(verb, outcomes, retries);
    var t := Execute(verb, outcomes, retries);
    assert IsGenericFailure(outcomes[t.attempts - 1]);
    forall i | 0 <= i < |t.waits|
      ensures t.waits[i] == 1000 * (i + 1)
    {
      assert IsGenericFailure(outcomes[i]);
      assert AttemptStep(verb, outcomes[i], i, retries) == Wait(t.waits[i]);
    }
  }

  /** An error embedded in a body is not surfaced at once: it is thrown
      inside the `try`, reaches the generic branch of the `catch`, and is
      retried with linear backoff; its message surfaces only on the last
      attempt. */
  lemma EmbeddedErrorIsRetried<P>(verb: Verb, body: Body<P>, attempt: nat, retries: int)
    requires body.error.Some?
    ensures AttemptStep(verb, Delivered(body), attempt, retries)
         == if attempt < retries - 1 then Wait(1000 * (attempt + 1))
            else Throw(EmbeddedErrorMessage(body.error.value))
  {
  }

  /** So an expired token reported in a 200 body (code 190) costs the
      whole budget: three attempts and three seconds of waiting, where a
      401 status costs one attempt. */
  lemma EmbeddedTokenErrorUsesWholeBudget<P>(verb: Verb, b0: Body<P>, b1: Body<P>, b2: Body<P>)
    requires b0.error.Some? && b0.error.value.code == Some(190)
    requires b1.error.Some? && b1.error.value.code == Some(190)
    requires b2.error.Some? && b2.error.value.code == Some(190)
    ensures Execute(verb, [Delivered(b0), Delivered(b1), Delivered(b2)], DefaultRetries)
         == Trace(Err(TokenMessage), [1000, 2000], 3)
  {
    EmbeddedErrorIsRetried(verb, b0, 0, DefaultRetries);
    EmbeddedErrorIsRetried(verb, b1, 1, DefaultRetries);
    EmbeddedErrorIsRetried(verb, b2, 2, DefaultRetries);
  }

  /** The branch order of the `catch`: a 429 status wins over everything,
      a 401 over a timeout code and an error body, a timeout code over an
      error body, and an error body over the generic retry. */
  lemma ClassificationOrder(verb: Verb, status: int, errorMessage: Option<string>, code: string, message: string)
    ensures Classify(verb, Failure(Some(HttpResponse(429, errorMessage)), code, message)) == Retryable(Exponential, RateLimitMessage)
    ensures Classify(verb, Failure(Some(HttpResponse(401, errorMessage)), code, message)) == Fatal(TokenMessage)
    ensures status != 429 && status != 401 && IsTimeoutCode(code) ==>
      Classify(verb, Failure(Some(HttpResponse(status, errorMessage)), code, message)) == Retryable(Linear, TimeoutMessage)
    ensures status != 429 && status != 401 && !IsTimeoutCode(code) && errorMessage.Some? ==>
      Classify(verb, Failure(Some(HttpResponse(status, errorMessage)), code, message))
        == Fatal(Or(errorMessage.value, ErrorBodyFallback(verb)))
    ensures status != 429 && status != 401 && !IsTimeoutCode(code) && errorMessage.None? ==>
      Classify(verb, Failure(Some(HttpResponse(status, errorMessage)), code, message))
        == Retryable(Linear, Or(message, UnexpectedMessage))
  {
  }

  lemma StepVerb<P>(o: Outcome<P>, attempt: nat, retries: int)
    ensures var g := AttemptStep(Get, o, attempt, retries);
            var p := AttemptStep(Post, o, attempt, retries);
      g == p || (g == Throw(FetchErrorFallback) && p == Throw(UpdateErrorFallback))
  {
  }

  lemma {:induction false} RunVerb<P>(outcomes: seq<Outcome<P>>, retries: int, k: nat, waits: seq<nat>)
    requires retries <= |outcomes|
    ensures var g := Run(Get, outcomes, retries, k, waits);
            var p := Run(Post, outcomes, retries, k, waits);
      && g.attempts == p.attempts && g.waits == p.waits
      && (g.result == p.result || (g.result == Err(FetchErrorFallback) && p.result == Err(UpdateErrorFallback)))
    decreases retries - k
  {
    if k < retries {
      StepVerb(outcomes[k], k, retries);
      var s := AttemptStep(Get, outcomes[k], k, retries);
      if s.Wait? {
        RunVerb(outcomes, retries, k + 1, waits + [s.ms]);
      }
    }
  }

  /** makeRequest and makePostRequest behave alike: same attempts, same
      waits, same result, except that an error body without a message
      yields each verb's own fallback. */
  lemma VerbOnlyChangesFallback<P>(outcomes: seq<Outcome<P>>, retries: int)
    requires retries <= |outcomes|
    ensures var g := Execute(Get, outcomes, retries);
            var p := Execute(Post, outcomes, retries);
      && g.attempts == p.attempts && g.waits == p.waits
      && (g.result == p.result || (g.result == Err(FetchErrorFallback) && p.result == Err(UpdateErrorFallback)))
  {
    RunVerb(outcomes, retries, 0, []);
  }

  /** Two calls made one after the other on a fresh client: `gap` is the
      time between their dispatch instants, which is at least
      `MinRequestInterval`; the second call's pacing wait is measured from
      the first call's dispatch, and each call's attempts run without
      further pacing. */
  method BackToBackCalls<P>(request1: Request, request2: Request, now1: int, resumed1: int, now2: int, resumed2: int,
                            outcomes1: seq<Outcome<P>>, outcomes2: seq<Outcome<P>>)
    returns (gap: int, pacing2: nat, trace1: Trace<P>, trace2: Trace<P>)
    requires resumed1 >= now1 + PacingDelay(now1, 0)
    requires resumed2 >= now2 + PacingDelay(now2, resumed1)
    requires DefaultRetries <= |outcomes1| && DefaultRetries <= |outcomes2|
    ensures gap == resumed2 - resumed1
    ensures gap >= MinRequestInterval
    ensures pacing2 == PacingDelay(now2, resumed1)
    ensures trace1 == Execute(request1.verb, outcomes1, DefaultRetries)
    ensures trace2 == Execute(request2.verb, outcomes2, DefaultRetries)
  {
    var client := new ApiClient();
    var r1, p1, w1, a1 := client.MakeRequest(request1, now1, resumed1, outcomes1, DefaultRetries);
    var dispatch1 := client.lastRequestTime;
    var r2, p2, w2, a2 := client.MakeRequest(request2, now2, resumed2, outcomes2, DefaultRetries);
    gap, pacing2 := client.lastRequestTime - dispatch1, p2;
    trace1, trace2 := Trace(r1, w1, a1), Trace(r2, w2, a2);
  }
}
