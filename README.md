# Meta Ads Dashboard: a Dafny model of its request layer

This project models the part of the Meta Ads Dashboard that talks to the Facebook Graph API, together with three small decision rules from its components.

- **The resilient request executor.** `makeRequest` and `makePostRequest` are modelled as one executor parameterised by the verb.
  - It paces calls 200 ms apart through the module-level `lastRequestTime`, held by the `ApiClient` class.
  - It retries transient failures: 429 with exponential backoff, timeouts and uncategorised errors with linear backoff.
  - It normalises every failure into a thrown message.
- **The service helpers** built on the executor: `getAdAccounts`, `getDatePresetParams`, the list shaping of `getCampaigns`, `getAdPreview`, and the two update wrappers.
- **`StatusToggle`**: the click handler and the `disabled` attribute.
- **`BudgetEditModal`**: the initial state and `handleSave`.
- **`Login`**: `handleSubmit` and `handleResetPassword`.

Time and the transport are inputs:
- The clock is two readings: one at entry, one after the pacing delay.
- The transport is a scripted sequence of outcomes, one per attempt.
- Every backoff wait is recorded rather than slept.

The executor method `RetryLoop` mirrors the source's `for` loop branch by branch. It is proved equal to `Execute`, a separately written specification. `Execute` classifies each failure (`Classify`: retryable with a backoff and a final message, or fatal) and then applies the retry policy. The lemmas in `ExecutorProperties` are stated about `Execute`, so through `RetryLoop`'s contract they hold of the executor itself.

Files:
- `common.dfy`: `Option`, `Result` and JavaScript's `||` on strings.
- `types.dfy`: the records of `src/types.ts`.
- `executor.dfy` and `executor_properties.dfy`: the executor and what it promises.
- `facebook_api.dfy`: the service helpers.
- `status_toggle.dfy`, `budget_edit_modal.dfy`, `login.dfy`: the components.

Two points about the executor are easy to misread in the code:

- **Errors embedded in a 200 body are retried, not surfaced at once.** The `Error` for such a body (code 190, codes 4 and 17, or any other `error`) is thrown inside the `try` (src/services/facebookApi.ts:32-41). The same function's `catch` then sees an `Error` with no `response` and no `code`. That error falls through to the generic branch: linear backoff, with the message surfaced only on the last attempt (lines 77-82). A 401 status, by contrast, fails at once (lines 58-60). `EmbeddedErrorIsRetried` and `EmbeddedTokenErrorUsesWholeBudget` state this.
- **Errors are plain messages.** The code throws only `Error(message)`, so the model's results carry only the message. `Classify` is the model's own classification of a caught failure, used to specify the loop.

## Model

| member | source | states |
|---|---|---|
| RequestExecutor.PacingDelay | src/services/facebookApi.ts:12-17 | the pacing wait is zero exactly when 200 ms have passed since the last dispatch, and otherwise ends exactly 200 ms after it |
| RequestExecutor.ApiClient.constructor | src/services/facebookApi.ts:6 | `lastRequestTime` starts at 0 |
| RequestExecutor.ApiClient.MakeRequest | src/services/facebookApi.ts:11-87 | one pacing wait computed from the old `lastRequestTime`, which is then set once (before the loop, so retries are not re-paced) and advances by at least 200 ms; the run is `Execute` of the verb |
| RequestExecutor.RetryLoop | src/services/facebookApi.ts:21-86 | the `for` loop with its try/catch branches yields exactly the result, waits and attempt count of the classifier-based specification `Execute` |
| RequestExecutor.EmbeddedErrorMessage | src/services/facebookApi.ts:32-41 | code 190 gives the token message, codes 4 and 17 the rate-limit message, anything else `error.message` or 'Facebook API error occurred'; never empty |
| ExecutorProperties.LastAttemptNeverWaits | src/services/facebookApi.ts:49-82 | on the last attempt no branch waits: 429, timeout and generic all throw |
| ExecutorProperties.ExecuteExplained | src/services/facebookApi.ts:21-86 | every run has this shape: with `retries <= 0`, no attempt and the exhaustion error; otherwise 1..retries attempts, each earlier attempt chose to wait the recorded time, and the last attempt returned or threw the result |
| ExecutorProperties.ExplainedIsExecute | src/services/facebookApi.ts:21-86 | conversely, any trace of that shape is the executor's run (the characterisation is exact) |
| ExecutorProperties.NoAttemptIffNoBudget | src/services/facebookApi.ts:21-86 | zero attempts exactly when `retries <= 0`, and then 'Request failed after multiple attempts.'; never more than `retries` attempts |
| ExecutorProperties.ResultsAreNormalised | src/services/facebookApi.ts:32-86 | a failed call always has a non-empty message; a successful one returns a delivered body that carries no `error` |
| ExecutorProperties.SuccessReturnedUnchanged | src/services/facebookApi.ts:32-43 | a body without `error` on the first attempt is returned unchanged after one attempt and no wait |
| ExecutorProperties.UnauthorizedFailsAtOnce | src/services/facebookApi.ts:58-60 | HTTP 401 throws the token message after one attempt with no wait |
| ExecutorProperties.AlwaysRateLimited | src/services/facebookApi.ts:48-55 | HTTP 429 on every attempt: `retries` attempts, a wait of 2^i × 1000 ms after attempt i, then the rate-limit message |
| ExecutorProperties.ThreeRateLimits | src/services/facebookApi.ts:48-55 | with the default budget and 429 throughout: three attempts, waits 1000 then 2000 ms, rate-limit message |
| ExecutorProperties.TimeoutsThenSuccess | src/services/facebookApi.ts:63-69 | k timeouts and then a clean body within the budget: that body is returned after k+1 attempts, with waits of 1000 × (i+1) ms |
| ExecutorProperties.TwoTimeoutsThenSuccess | src/services/facebookApi.ts:63-69 | two timeouts then a clean body: three attempts, waits 1000 and 2000 ms, body returned |
| ExecutorProperties.EmbeddedErrorIsRetried | src/services/facebookApi.ts:32-82 | an error embedded in a 200 body waits 1000 × (attempt+1) ms and retries, and surfaces its message only on the last attempt |
| ExecutorProperties.EmbeddedTokenErrorUsesWholeBudget | src/services/facebookApi.ts:34-35 | code 190 in the body on every attempt costs three attempts and 1000 + 2000 ms before the token message (a 401 costs one attempt) |
| ExecutorProperties.ClassificationOrder | src/services/facebookApi.ts:48-82 | branch priority: 429 beats everything, 401 beats a timeout code and an error body, a timeout code beats an error body, and an error body (thrown at once) beats the generic retry |
| ExecutorProperties.AlwaysTimedOut | src/services/facebookApi.ts:63-68 | a timeout on every attempt: `retries` attempts, a wait of 1000 × (i+1) ms after attempt i, then the timeout message |
| ExecutorProperties.ErrorBodyFailsAtOnce | src/services/facebookApi.ts:72-75 | an HTTP failure whose body has an `error` (no 429 or 401, no timeout code) throws `error.message`, or the verb's fallback, after one attempt and no wait |
| ExecutorProperties.GenericFailureRetried | src/services/facebookApi.ts:77-82 | a failure no other branch takes, on every attempt: `retries` attempts with waits of 1000 × (i+1) ms, then the last failure's message or 'An unexpected error occurred.' |
| ExecutorProperties.VerbOnlyChangesFallback | src/services/facebookApi.ts:89-165 | makeRequest and makePostRequest make the same attempts and waits and give the same result, except for the fallback message of an error body without a message |
| ExecutorProperties.BackToBackCalls | src/services/facebookApi.ts:12-19 | on a fresh client, the gap between the two calls' dispatch instants is at least 200 ms; the second call's pacing wait is measured from the first dispatch; each call's run is `Execute` |
| FacebookApi.FirstOf | src/services/facebookApi.ts:237 | `data?.[0]` is present exactly when `data` is a non-empty list, and it is its first row |
| FacebookApi.GetAdAccounts | src/services/facebookApi.ts:168-178 | the listed accounts, or `[]` when the body has no `data`; a failure is rethrown with its message |
| FacebookApi.FetchAdAccounts | src/services/facebookApi.ts:168-178 | the accounts request (fields id, name, account_id) goes through the client's executor with the default budget, and its result is shaped as above |
| FacebookApi.DatePresetParams | src/services/facebookApi.ts:181-196 | the four presets map to `date_preset` equal to their own names; 'custom' with a range gives only `time_range` with the two days; 'custom' without one gives 'today'; every `date_preset` is one the upstream accepts |
| FacebookApi.DateParamEntries | src/services/facebookApi.ts:183-195 | a preset contributes exactly its `date_preset` entry; a range contributes exactly a `time_range` entry whose text is the `JSON.stringify` of its `since` and `until` days |
| FacebookApi.InsightsRequest | src/services/facebookApi.ts:229-235 | a GET of the campaign's insights whose parameters are `fields` plus exactly the date entries, spread in unchanged |
| FacebookApi.CentsToDollars | src/services/facebookApi.ts:220-221 | a zero or absent budget becomes absent; a present one, multiplied by 100, gives back the cents |
| FacebookApi.ShapeCampaign | src/services/facebookApi.ts:216-223 | a listed campaign keeps id, name and status, takes its effective status as delivery status, converts both budgets and starts without insights or creative |
| FacebookApi.ParseInsights | src/services/facebookApi.ts:239-246 | each insights field is the row's value, or 0 (or `[]` for actions) when absent |
| FacebookApi.CreativeIdFrom | src/services/facebookApi.ts:258-260 | a failed ads request gives no creative id; otherwise there is one exactly when the first row has a non-empty `creative.id`, and it is that id |
| FacebookApi.GetCampaigns | src/services/facebookApi.ts:199-276 | a failed listing propagates its message; otherwise one campaign per listed row in the same order; each insights request carries the date parameters of the preset and range; a failed insights request leaves that campaign with neither insights nor creative id; a failed ads request leaves only the creative id out |
| FacebookApi.BudgetInCents | src/services/facebookApi.ts:301 | `Math.round(dollars × 100)`: the nearest whole number of cents, a half cent rounding up |
| FacebookApi.BudgetRoundTrip | src/services/facebookApi.ts:220-305 | writing back a daily budget as it was read sends exactly the cents the listing reported |
| FacebookApi.UpdateResult | src/services/facebookApi.ts:279-311 | the update wrappers resolve to `true` exactly when the write succeeded and otherwise rethrow its message |
| FacebookApi.UpdateCampaignStatus | src/services/facebookApi.ts:279-292 | a POST of `status` to the campaign through the client's executor; `true` or the rethrown message, as `UpdateResult` states |
| FacebookApi.UpdateCampaignBudget | src/services/facebookApi.ts:295-311 | a POST of `daily_budget` in cents to the campaign through the client's executor; `true` or the rethrown message |
| FacebookApi.PreviewIframe | src/services/facebookApi.ts:332 | the fallback iframe's `src` is the public preview page for exactly this creative id and format |
| FacebookApi.GetAdPreview | src/services/facebookApi.ts:314-338 | never fails: a failed request gives the iframe for the creative and format; a successful one gives the first row's non-empty `body`, or the iframe when there is none; never empty |
| FacebookApi.FetchAdPreview | src/services/facebookApi.ts:314-338 | the previews request with `ad_format` goes through the client's executor, and the HTML is chosen as above |
| StatusToggle.HandleToggle | src/components/StatusToggle.tsx:8-18 | `onChange` is not called exactly when the button is `disabled` (prop set, ARCHIVED or DELETED); otherwise ACTIVE emits PAUSED and PAUSED emits ACTIVE |
| StatusToggle.ToggleTwiceRestores | src/components/StatusToggle.tsx:8-12 | for ACTIVE or PAUSED, toggling the emitted status emits the original again |
| BudgetEditModal.Reported | src/components/BudgetEditModal.tsx:27 | `onError?.(msg)` calls `onError` only when the prop was given |
| BudgetEditModal.InitialBudgetText | src/components/BudgetEditModal.tsx:14-16 | the initial text is the daily budget if defined, else the lifetime budget, else '0'; never empty |
| BudgetEditModal.ListedCampaignStartsDailyIffItHasDailyBudget | src/components/BudgetEditModal.tsx:17 | for a listed campaign, `isDaily` starts true exactly when the listing reported a non-zero daily budget |
| BudgetEditModal.Modal.constructor | src/components/BudgetEditModal.tsx:13-19 | initial `budget` text, `isDaily`, `loading` false, no error, nothing called yet |
| BudgetEditModal.Modal.HandleSave | src/components/BudgetEditModal.tsx:21-56 | invalid amount: error and `onError`, no update; not daily: the lifetime message to error and `onError`, no update; success: update, then `onSave`, then `onClose`; failure: `err.message` or 'Failed to update budget' to error and `onError`; `loading` false on every path past validation |
| BudgetEditModal.SaveListedCampaign | src/components/BudgetEditModal.tsx:21-56 | on a listed campaign, the update is requested exactly for a positive amount on a daily budget, `onSave` is called exactly when it also succeeded, and `onClose` directly follows `onSave` |
| Login.ResetProblem | src/components/Login.tsx:48-64 | the reported message is that of the first failing check (email, then match, then length as `.length` counts it, in UTF-16 code units); none exactly when all three pass |
| Common.Utf16Length | src/components/Login.tsx:61 | `.length` counts UTF-16 code units: one character counts 2 when it lies above the Basic Multilingual Plane and 1 otherwise; the total lies between |s| and 2·|s| |
| Common.Utf16LengthConcat | src/components/Login.tsx:61 | the count of a concatenation is the sum of the counts, so with the one-character case it is exact for every string |
| Login.ThreeEmojiPasswordIsLongEnough | src/components/Login.tsx:61 | three emoji pass the six-character check, each counting as two code units |
| Login.LoginForm.constructor | src/components/Login.tsx:5-16 | all fields empty or false, storage as given, `onLogin` not yet called |
| Login.LoginForm.HandleSubmit | src/components/Login.tsx:18-37 | the exact built-in pair stores `isAuthenticated` = 'true' and `userEmail` and calls `onLogin` once, with the error cleared; any other pair sets the invalid-credentials message and stores nothing; `loading` false at the end |
| Login.LoginForm.HandleResetPassword | src/components/Login.tsx:44-72 | a failing check reports its message and stores nothing; success stores `userPassword` and sets `resetSuccess` |
| Login.SignInAfterReset | src/components/Login.tsx:27-70 | after a reset, sign-in still accepts exactly the built-in password: the stored `userPassword` is never read |

## Left out

- Transport and configuration are not part of this model: axios, HTTPS, the 30-second request timeout, `getAccessToken`, `FACEBOOK_API_BASE`, and `src/config`. A timeout reaches the model as an outcome with code ECONNABORTED or ETIMEDOUT. The per-attempt access token is not modelled.
- Time is two clock readings per call. The model assumes a monotone clock and a timer that never fires early. `MakeRequest` therefore requires the second reading to be at least the pacing delay after the first. `Date.now()` is a wall clock that can step backwards, and a timer can fire slightly early as `Date.now()` measures it. So the 200 ms spacing (`MakeRequest`, `BackToBackCalls`) holds only under this assumption. Backoff waits are recorded, not slept.
- RequestExecutor.RetryLoop and RequestExecutor.ApiClient.MakeRequest require a scripted outcome for every attempt the budget allows (`retries <= |outcomes|`), because the script stands for the transport.
- Concurrency is not modelled. `getCampaigns` fans out with `Promise.all`, and concurrent calls race on `lastRequestTime`. The model takes calls one after another.
- `getAdAccounts`, the two update wrappers and `getAdPreview` each send one request through `ApiClient.MakeRequest`. `getCampaigns` makes many requests. It takes the listing's result and two functions that answer each insights and ads request by the request sent. It does not drive the executor for each request, so its pacing and retries are not modelled.
- FacebookApi.GetCampaigns models each campaign as a value that is updated and stored back. The source mutates freshly created objects in place, which nothing else can observe, so the result is the same.
- Floating point is not modelled. Budgets are exact reals: `cents / 100` and `Math.round` as floor(x + 0.5) are exact there.
- Parsing and formatting are left out:
  - `parseInt`/`parseFloat` of insights fields arrive already parsed.
  - `parseFloat` of the budget text is a parameter returning `None` for NaN.
  - Number-to-text conversion and `toISOString().split('T')[0]` are parameters.
  - `JSON.stringify` of `time_range` is written out for two plain day strings. Escaping of quotes or control characters is not modelled.
- Budgets are modelled as numbers. If the upstream sent a budget as the string "0", JavaScript would treat it as truthy, which this model does not reproduce.
- A `response.data` that is null (a TypeError inside the `try`) is not modelled. Neither is an `error` value that is truthy but not an object.
- `console` logging is not modelled.
- Login timing is left out: the 500 ms and 1000 ms simulated delays and the 2-second form reset after a successful password reset.
- Login view toggles are left out: `handleForgotPassword` and the show/hide-password switches.
- Rendering and view-only components are not part of this model: all JSX, `Dashboard.tsx` (effects and a 5-minute refresh), `CampaignTable.tsx` (formatting and the transient `updatingStatus` flag), `AdPreviewModal.tsx`, `DateFilter.tsx` and `useNotification.tsx`.
- Error kinds: the code throws plain `Error(message)` values, and the model carries only the message.
- Unpaired surrogates in JavaScript strings are not modelled: a Dafny `char` is a Unicode scalar value.
