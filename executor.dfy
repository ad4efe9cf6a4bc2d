/** The resilient request executor of src/services/facebookApi.ts:
    `makeRequest` and `makePostRequest`, one model parameterised by the
    HTTP verb. The module-level `lastRequestTime` is the one field of the
    `ApiClient` class; the transport is a scripted sequence of outcomes, one
    per attempt, and every wait is recorded instead of slept. */
module RequestExecutor {
  import opened Common

  /** Minimum spacing, in milliseconds, between two dispatched calls. */
  const MinRequestInterval: int := 200
  /** The default of the `retries` parameter. */
  const DefaultRetries: int := 3

  const TokenMessage := "Access token expired or invalid. Please refresh your token."
  const EmbeddedRateLimitMessage := "Rate limit reached. Please wait a moment and try again."
  const RateLimitMessage := "Rate limit reached. Please wait a few minutes and try again."
  const TimeoutMessage := "Request timeout. Please check your internet connection and try again."
  const FacebookErrorFallback := "Facebook API error occurred"
  const FetchErrorFallback := "An error occurred while fetching data."
  const UpdateErrorFallback := "An error occurred while updating data."
  const UnexpectedMessage := "An unexpected error occurred."
  const ExhaustedMessage := "Request failed after multiple attempts."

  /** `axios.get` (makeRequest) or `axios.post` (makePostRequest). */
  datatype Verb = Get | Post

  /** The graph node a request targets, below the API base URL. */
  datatype Endpoint =
    | MyAdAccounts
    | AccountCampaigns(accountId: string)
    | CampaignInsights(campaignId: string)
    | CampaignAds(campaignId: string)
    | Node(id: string)
    | CreativePreviews(creativeId: string)

  datatype ParamValue = Text(text: string) | Number(number: int)

  /** One logical call: the verb, the target and the query parameters
      (to which the transport adds the access token). */
  datatype Request = Request(verb: Verb, endpoint: Endpoint, params: map<string, ParamValue>)

  /** The `error` object the upstream service embeds in a body. An absent
      `code` is `None`; an absent `message` is the empty string. */
  datatype FbError = FbError(code: Option<int>, message: string)

  /** A decoded response body (`response.data`): its `error` key, when
      present, and the rest of the payload. */
  datatype Body<P> = Body(error: Option<FbError>, payload: P)

  /** The `response` of a failed HTTP exchange. `errorMessage` is `Some(m)`
      exactly when the response data is an object with an `error` key;
      `m` is that error's `message` (empty when absent or when the error
      itself is null). */
  datatype HttpResponse = HttpResponse(status: int, errorMessage: Option<string>)

  /** A caught error as the `catch` block sees it: an optional `response`,
      a `code` (empty when absent) and a `message` (empty when absent). */
  datatype Failure = Failure(response: Option<HttpResponse>, code: string, message: string)

  /** What one dispatch produces: the transport resolved with a body, or it
      rejected with an error. */
  datatype Outcome<P> = Delivered(body: Body<P>) | Rejected(failure: Failure)

  /** The whole observable run of one call: what it returned or threw, the
      backoff waits between attempts, and how many attempts were made. */
  datatype Trace<P> = Trace(result: Result<Body<P>>, waits: seq<nat>, attempts: nat)

  function Pow2(n: nat): (r: nat)
    ensures r >= 1
  {
    if n == 0 then 1 else 2 * Pow2(n - 1)
  }

  /** How long a call made at `now` waits before dispatch when the previous
      dispatch was at `last`. */
  function PacingDelay(now: int, last: int): (w: nat)
    ensures w == 0 <==> now - last >= MinRequestInterval
    ensures now + w >= last + MinRequestInterval
    ensures w > 0 ==> now + w == last + MinRequestInterval
  {
    var elapsed := now - last;
    if elapsed < MinRequestInterval then MinRequestInterval - elapsed else 0
  }

  /** A plain `Error` thrown inside the `try` block: no response, no code. */
  function PlainError(message: string): Failure
  {
    Failure(None, "", message)
  }

  function StatusOf(f: Failure): Option<int>
  {
    if f.response.Some? then Some(f.response.value.status) else None
  }

  predicate IsTimeoutCode(code: string)
  {
    code == "ECONNABORTED" || code == "ETIMEDOUT"
  }

  /** The message of the `Error` thrown for an error embedded in a body. */
  function EmbeddedErrorMessage(e: FbError): (m: string)
    ensures m != ""
    ensures e.code == Some(190) ==> m == TokenMessage
    ensures e.code == Some(4) || e.code == Some(17) ==> m == EmbeddedRateLimitMessage
    ensures e.code !in {Some(190), Some(4), Some(17)} ==> m == Or(e.message, FacebookErrorFallback)
  {
    if e.code == Some(190) then TokenMessage
    else if e.code == Some(4) || e.code == Some(17) then EmbeddedRateLimitMessage
    else Or(e.message, FacebookErrorFallback)
  }

  /** The fallback for an error body without a message: the one string in
      which the two verbs differ. */
  function ErrorBodyFallback(verb: Verb): string
  {
    match verb
    case Get => FetchErrorFallback
    case Post => UpdateErrorFallback
  }

  // ---------------------------------------------------------------------
  // Reference specification: a classifier and a retry policy.
  // ---------------------------------------------------------------------

  datatype Backoff = Exponential | Linear

  /** How the executor treats a failure: retried with a backoff, surfacing
      `finalMessage` when no attempt is left, or thrown at once. */
  datatype Disposition = Retryable(backoff: Backoff, finalMessage: string) | Fatal(message: string)

  /** The classification of a caught failure, in the executor's priority
      order: 429, then 401, then a timeout code, then an error body, then
      everything else. */
  function Classify(verb: Verb, f: Failure): Disposition
  {
    if StatusOf(f) == Some(429) then Retryable(Exponential, RateLimitMessage)
    else if StatusOf(f) == Some(401) then Fatal(TokenMessage)
    else if IsTimeoutCode(f.code) then Retryable(Linear, TimeoutMessage)
    else if f.response.Some? && f.response.value.errorMessage.Some? then
      Fatal(Or(f.response.value.errorMessage.value, ErrorBodyFallback(verb)))
    else Retryable(Linear, Or(f.message, UnexpectedMessage))
  }

  /** The wait before the attempt after the zero-based `attempt`. */
  function BackoffDelay(b: Backoff, attempt: nat): nat
  {
    match b
    case Exponential => Pow2(attempt) * 1000
    case Linear => 1000 * (attempt + 1)
  }

  /** What an attempt does next. */
  datatype Step<P> = Return(body: Body<P>) | Throw(message: string) | Wait(ms: nat)

  /** The step taken after the zero-based `attempt` produced `o`. A body
      carrying an error is turned into a plain `Error` and classified like
      any other caught error. */
  function AttemptStep<P>(verb: Verb, o: Outcome<P>, attempt: nat, retries: int): Step<P>
  {
    var failure :=
      match o
      case Delivered(body) => if body.error.None? then None else Some(PlainError(EmbeddedErrorMessage(body.error.value)))
      case Rejected(f) => Some(f);
    if failure.None? then Return(o.body)
    else match Classify(verb, failure.value)
      case Fatal(m) => Throw(m)
      case Retryable(b, m) =>
        if attempt < retries - 1 then Wait(BackoffDelay(b, attempt)) else Throw(m)
  }

  /** The run from the zero-based `attempt` on, `waits` being the waits so far. */
  function Run<P>(verb: Verb, outcomes: seq<Outcome<P>>, retries: int, attempt: nat, waits: seq<nat>): Trace<P>
    requires retries <= |outcomes|
    decreases retries - attempt
  {
    if attempt >= retries then Trace(Err(ExhaustedMessage), waits, attempt)
    else match AttemptStep(verb, outcomes[attempt], attempt, retries)
      case Return(b) => Trace(Ok(b), waits, attempt + 1)
      case Throw(m) => Trace(Err(m), waits, attempt + 1)
      case Wait(ms) => Run(verb, outcomes, retries, attempt + 1, waits + [ms])
  }

  /** The whole run of one call with budget `retries`. */
  function Execute<P>(verb: Verb, outcomes: seq<Outcome<P>>, retries: int): Trace<P>
    requires retries <= |outcomes|
  {
    Run(verb, outcomes, retries, 0, [])
  }

  // ---------------------------------------------------------------------
  // The executor as the source writes it.
  // ---------------------------------------------------------------------

  /** The `for (attempt …)` loop of makeRequest (verb `Get`) and
      makePostRequest (verb `Post`): `outcomes[i]` is what the transport
      produces at attempt `i`. */
  method RetryLoop<P>(verb: Verb, outcomes: seq<Outcome<P>>, retries: int)
    returns (result: Result<Body<P>>, waits: seq<nat>, attempts: nat)
    requires retries <= |outcomes|
    ensures Trace(result, waits, attempts) == Execute(verb, outcomes, retries)
  {
    var attempt: nat := 0;
    waits := [];
    while attempt < retries
      invariant attempt == 0 || attempt <= retries
      invariant Run(verb, outcomes, retries, attempt, waits) == Execute(verb, outcomes, retries)
      decreases retries - attempt
    {
      // try
      var error: Failure;
      match outcomes[attempt] {
        case Delivered(body) =>
          if body.error.None? {
            return Ok(body), waits, attempt + 1;
          }
          var fbError := body.error.value;
          if fbError.code == Some(190) {
            error := PlainError(TokenMessage);
          } else if fbError.code == Some(4) || fbError.code == Some(17) {
            error := PlainError(EmbeddedRateLimitMessage);
          } else {
            error := PlainError(Or(fbError.message, FacebookErrorFallback));
          }
        case Rejected(f) =>
          error := f;
      }
      // catch
      if error.response.Some? && error.response.value.status == 429 {
        if attempt < retries - 1 {
          waits := waits + [Pow2(attempt) * 1000];
          attempt := attempt + 1;
          continue;
        }
        return Err(RateLimitMessage), waits, attempt + 1;
      }
      if error.response.Some? && error.response.value.status == 401 {
        return Err(TokenMessage), waits, attempt + 1;
      }
      if error.code == "ECONNABORTED" || error.code == "ETIMEDOUT" {
        if attempt < retries - 1 {
          waits := waits + [1000 * (attempt + 1)];
          attempt := attempt + 1;
          continue;
        }
        return Err(TimeoutMessage), waits, attempt + 1;
      }
      if error.response.Some? && error.response.value.errorMessage.Some? {
        return Err(Or(error.response.value.errorMessage.value, ErrorBodyFallback(verb))), waits, attempt + 1;
      }
      if attempt == retries - 1 {
        return Err(Or(error.message, UnexpectedMessage)), waits, attempt + 1;
      }
      waits := waits + [1000 * (attempt + 1)];
      attempt := attempt + 1;
    }
    return Err(ExhaustedMessage), waits, attempt;
  }

  /** Holder of the module-level `lastRequestTime`. */
  class ApiClient {
    var lastRequestTime: int

    constructor ()
      ensures lastRequestTime == 0
    {
      lastRequestTime := 0;
    }

    /** One call of makeRequest/makePostRequest. `now` is the clock reading
        at entry and `resumedAt` the reading after the pacing delay;
        `outcomes` is what the transport answers to `request`, attempt by
        attempt. */
    method MakeRequest<P>(request: Request, now: int, resumedAt: int, outcomes: seq<Outcome<P>>, retries: int)
      returns (result: Result<Body<P>>, pacingWait: nat, waits: seq<nat>, attempts: nat)
      requires resumedAt >= now + PacingDelay(now, lastRequestTime)
      requires retries <= |outcomes|
      modifies this
      ensures pacingWait == PacingDelay(now, old(lastRequestTime))
      ensures lastRequestTime == resumedAt
      ensures lastRequestTime >= old(lastRequestTime) + MinRequestInterval
      ensures Trace(result, waits, attempts) == Execute(request.verb, outcomes, retries)
    {
      var timeSinceLastRequest := now - lastRequestTime;
      pacingWait := 0;
      if timeSinceLastRequest < MinRequestInterval {
        pacingWait := MinRequestInterval - timeSinceLastRequest;
      }
      lastRequestTime := resumedAt;
      result, waits, attempts := RetryLoop(request.verb, outcomes, retries);
    }
  }
}
