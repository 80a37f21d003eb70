# nasa-sdk request and retry model

This project is a Dafny model of the core of `nasa-sdk`. That is a typed TypeScript client for NASA's "Astronomy Picture of the Day" feed. The model covers three parts:

- **Retry policy** (`src/utils.ts`, module `Retry`). `withRetry` calls an operation and returns its first success. After a failure it rethrows at once when the failure is an `AbortError` or the signal is aborted. It also rethrows when the retry budget is at most 0. Otherwise it waits `delay` ms and tries again with one retry fewer. The model is a pure recursive function over the outcomes of the operation's successive calls. It returns the result, the number of attempts and a log of the waits.
- **Record schema** (`src/types.ts`, module `Schema`). These are the record type and its validators over decoded JSON (module `Json`).
  - `date`, `title`, `explanation` and `service_version` must be strings.
  - `media_type` must be exactly `"image"` or `"video"`.
  - `url` must be a URL. `hdurl` is optional, but must be a URL when present.
  - The array validator checks every element and keeps their order.
  - As in the schema library, every issue is collected. Issues come in key-declaration order and then element order, each with its path. An object's issues name exactly the keys that break their rule. An array's issues are those of its failing elements, each under the element's position.
  - The URL test is the parameter `isUrl`, and every lemma holds for every such test.
- **Feed client** (`src/client.ts`, module `Client`). This is the class `NasaSdk`.
  - Its constructor fills in the defaults `retries = 3` and `retryDelayMs = 500`. The fields are `const`, so they are set once.
  - `fetchRaw` builds its query by appending to the URL's search parameters in a loop. This is the method `BuildQuery` over a small `SearchParams` class. It is proved equal to the function `RequestQuery`.
  - The function pipeline `FetchRaw`, `RequestSingle` and `RequestArray` checks for abort before any transport call. It then sends the query and sorts the answer into: no response, non-ok, undecodable body, or a JSON body. Last, it validates the body.
  - `GetApod`, `GetRandom` and `GetRange` run that pipeline under `WithRetry` with the client's configuration.
  - The transport is a parameter: `transport(k, q)` is the outcome of the k-th call when it sends query `q`. Each public call returns its result, attempt count, wait log and the queries it sent.

The error kinds are in module `Errors`. Cancellation is a tag (`AbortError`), not a name found on an error object. The module also has the messages the SDK builds itself. `Text` gives the decimal form that `String` produces for an integer whose magnitude is below 10^21.

The model follows the code on these points:
- `getApod` sends `date` only when it is truthy, so an empty string sends no date (`src/client.ts:83`).
- A negative retry budget is accepted and acts like 0 (`src/utils.ts:16`).
- Validation failures are thrown inside the retried operation, so they are retried like transport errors (`src/client.ts:63-64`).
- The schema collects all issues rather than stopping at the first one.

## Model

| member | source | states |
|---|---|---|
| `Retry.WithRetry` | src/utils.ts:2-21 | The result is that of the last call. Every earlier call was a retryable failure: not an abort, with the signal not aborted. The policy stops before the budget is spent only at a success or a failure it must not retry. There are between 1 and max(retries, 0) + 1 attempts. There is one wait of exactly `delay` between each two calls. |
| `Retry.RunDetermined` | src/utils.ts:2-21 | The contract of `WithRetry` fixes the run: any run that meets it is the run `WithRetry` returns. |
| `Retry.FirstSuccessReturned` | src/utils.ts:8-9 | A first call that succeeds is returned after one attempt and no wait. |
| `Retry.CancellationNotRetried` | src/utils.ts:12-14 | A failure that is an abort, or any failure once the signal is aborted, is rethrown unchanged after one attempt, whatever the budget. The abort test comes before the budget test. |
| `Retry.NoBudgetOneAttempt` | src/utils.ts:16 | With retries <= 0 there is exactly one attempt and its outcome is returned. A negative budget behaves as 0. |
| `Retry.PersistentFailureExhaustsBudget` | src/utils.ts:16-19 | An operation that always fails retryably runs retries + 1 times, waits `delay` retries times, and the last failure is propagated. |
| `Retry.FailOnceThenSucceed` | src/utils.ts:18-19 | A retryable failure followed by a success, with retries >= 1, returns the success after two attempts and one wait. |
| `Retry.AlwaysFailingFourCalls` | tests/utils.test.ts:19-24 | An always-failing operation with 3 retries is called 4 times and its error is propagated. |
| `Retry.RecoversAfterOneFailure` | tests/utils.test.ts:5-17 | One failure and then 42, with 2 retries and a 1000 ms delay, yields 42 after one 1000 ms wait. |
| `Schema.StringField` | src/types.ts:10-12 | A required string key is accepted iff it is present and holds a string, and its value is that string. Otherwise there is one issue at that key: "required" iff the key is absent. |
| `Schema.MediaTypeField` | src/types.ts:13 | `media_type` is accepted iff it is exactly "image" or "video", and the result names that value. An absent key is "required". |
| `Schema.UrlField` | src/types.ts:14 | `url` is accepted iff it is a present string that passes the URL test, and the result is that string. |
| `Schema.OptionalUrlField` | src/types.ts:15 | `hdurl` is accepted iff it is absent or a string that passes the URL test. The result is absent iff the key is. |
| `Schema.ValidateOne` | src/types.ts:9-17 | A value is accepted iff it conforms to the record rules, stated separately in `Conforms`. An accepted record carries exactly the object's values under the schema keys. A rejection carries at least one issue. For an object, the rejection has an issue at a key exactly when that key breaks its rule, every issue is at a schema key, and an issue is "required" exactly when its key is absent. A non-object has one "expected object" issue at the root. |
| `Schema.FieldIssues` | src/types.ts:10-16 | One key's validator reports nothing iff the key keeps its rule. Each issue it reports is at that key, and it is "required" iff the key is absent. |
| `Schema.KeyIssues` | src/types.ts:9-17 | The collected issues of a list of keys are empty iff every key keeps its rule. There is an issue at a key exactly when the key is in the list and breaks its rule. |
| `Schema.ConformsByKey` | src/types.ts:9-17 | An object conforms to the record rules exactly when each of the seven keys keeps its own rule. |
| `Schema.KeyNameInjective` | src/types.ts:10-16 | Different schema fields have different key names, so an issue's key names one field. |
| `Schema.KeyBreakReported` | src/types.ts:9-17 | An object with a key that breaks its rule fails, with an issue at that key. |
| `Schema.RoundTrip` | src/types.ts:9-17 | A record whose URLs pass the test validates back to itself from its JSON object. |
| `Schema.ValidateIdempotent` | src/types.ts:9-17 | Validating the fields of a validated record gives the same record again. |
| `Schema.ValidateStripsExtraKeys` | src/types.ts:9-17 | The object of a validated record is the input object with every key outside the schema dropped. |
| `Schema.MissingKeyReported` | src/types.ts:10-16 | An object missing any key but `hdurl` fails, with a "required" issue at that key. |
| `Schema.UnrelatedObjectRejected` | tests/client.test.ts:42-49 | `{invalid: "data"}` fails with one "required" issue for each of the six required keys, in declaration order. |
| `Schema.ValidateItems` | src/types.ts:19 | An array slice is accepted iff every element validates. The output has the same length, and element i is the validation of element i. A rejection is not empty. Every issue is under the position of an element that fails, and every issue of every failing element is reported under that element's position. |
| `Schema.ValidateMany` | src/types.ts:19 | An array is accepted iff every element validates, and the output keeps length and order. A non-array has one "expected array" issue at the root. A rejected array's issues are not empty. Each is under the position of a failing element, and each failing element's issues all appear under its position. |
| `Schema.FailingElementReported` | src/types.ts:19 | An array with a failing element i fails, and some issue is under position i. |
| `Schema.EmptyArrayAccepted` | src/types.ts:19 | An empty array validates to the empty sequence. |
| `Schema.ManyRoundTrip` | src/types.ts:19 | The array of the objects of valid records validates back to those records in order. |
| `Errors.SdkPrefixed` | src/client.ts:43-51 | The network-failure and API-failure messages both start with "NASA_SDK_ERROR: ". |
| `Errors.ApiMessageInjective` | src/client.ts:50 | The API-failure message determines both the status and the status text. |
| `Errors.ServerErrorMessage` | src/client.ts:50 | A 500 "Internal Server Error" gives the message "NASA_SDK_ERROR: 500 Internal Server Error". |
| `Text.NatToDecimal` | src/client.ts:37 | `String(n)` of a natural number is a non-empty string of decimal digits, with more than one digit iff n >= 10. A number of two or more digits has no leading zero. |
| `Text.DecimalRoundTrip` | src/client.ts:37 | Reading back the digits of `n` gives `n`. |
| `Text.IntToDecimal` | src/client.ts:37 | `String(i)` of an integer is its digits, with a leading '-' exactly when i < 0, and it denotes i. The digits are never empty and never start with a zero, except for the single digit of 0. |
| `Text.IntToDecimalInjective` | src/client.ts:37 | Different counts are sent as different query values. |
| `Client.NasaSdk.constructor` | src/client.ts:15-19 | `apiKey` is copied. `retries` is 3 and `retryDelayMs` is 500 only when absent. Supplied values, 0 included, are kept. The fields are constants, so they never change afterwards. |
| `Client.SearchParams.Append` | src/client.ts:33 | Appending adds one pair at the end of the entries and leaves the others in place. |
| `Client.NasaSdk.BuildQuery` | src/client.ts:32-39 | The loop over the parameter entries builds exactly `RequestQuery`: `api_key` first, then each present parameter in order, as text. |
| `Client.AppendedOfConcat` | src/client.ts:35-39 | Parameters are added in entry order: the pairs of a concatenation are the concatenated pairs. |
| `Client.AppendedMembers` | src/client.ts:35-39 | A pair (key, text) is sent iff some parameter has that key, a value that is neither `undefined` nor `null`, and `String` of it equal to text. |
| `Client.AppendedAllPresent` | src/client.ts:35-39 | When every value is present, each parameter is sent in its place as its text. |
| `Client.Classify` | src/client.ts:43-53 | Only an ok response with a decodable body succeeds, and then with that body. No response gives the network failure. A non-ok response gives an API failure with its status and status text. A transport rejection is passed on unchanged. |
| `Client.NasaSdk.FetchRaw` | src/client.ts:24-54 | An aborted signal yields `AbortError`, and the transport is not called. Otherwise the query `RequestQuery(apiKey, params)` is sent once. The fetch's result is the classification of the transport's answer to that query. It succeeds iff the answer classifies as a body, and then with that body. |
| `Client.NasaSdk.RequestSingle` | src/client.ts:59-65 | Succeeds iff the fetch succeeds and its body validates as one record, which then agrees with the body. Fetch failures pass unchanged. A body that fails the schema becomes a validation error carrying exactly the issues of `ValidateOne`. |
| `Client.NasaSdk.RequestArray` | src/client.ts:67-73 | Succeeds iff the fetch succeeds and its body validates as an array of records, each agreeing with its element, in order. Fetch failures pass unchanged. A body that fails the schema becomes a validation error carrying exactly the issues of `ValidateMany`. |
| `Client.NasaSdk.RequestSingleSucceeded` | src/client.ts:63-64 | A successful single request had an ok answer whose body validates to exactly the returned record. |
| `Client.NasaSdk.RequestArraySucceeded` | src/client.ts:71-72 | A successful array request had an ok answer whose body validates to exactly the returned records. |
| `Client.PerformRetries` | src/client.ts:82-116 | A public call keeps the retry policy: between 1 and max(retries, 0) + 1 attempts, and the result is that of the last attempt. Every earlier attempt failed retryably. The call stops before the budget is spent only at an outcome it must not retry. There is one wait of exactly `delay` between each two attempts. The requests are those the attempts sent. |
| `Client.PerformCancelled` | src/client.ts:28-30 | When every attempt is cancelled before sending, the public call makes one attempt, fails with `AbortError`, and sends nothing. |
| `Client.PerformSends` | src/client.ts:82-116 | When every attempt sends `q`, there is one request per attempt, all equal to `q`, at most retries + 1 of them. The call ends with the last attempt's result. |
| `Client.PerformExhausts` | src/utils.ts:16-19 | When every attempt fails retryably, the public call makes retries + 1 attempts with retries waits, and returns the last failure. |
| `Client.ApodQuery` | src/client.ts:83 | `getApod` sends `api_key`, then `date` only when the date is given and not empty. |
| `Client.RandomQuery` | src/client.ts:91-95 | `getRandom` sends `api_key` and `count`. The count is 1 when not given. |
| `Client.RangeQuery` | src/client.ts:109-111 | `getRange` sends `api_key`, `start_date` and `end_date`, in that order. |
| `Client.NasaSdk.GetApodCall` | src/client.ts:78-88 | With the signal aborted: one attempt, `AbortError`, no wait, and the transport is never reached. Otherwise every request is the `getApod` query, one per attempt, at most retries + 1. A success is the single-record validation of the last ok answer. The result is that of the last attempt, every earlier attempt failed retryably, and the call stops early only at an outcome it must not retry. There are attempts - 1 waits, each of `retryDelayMs`. Without an abort, a failure is the classified failure of the last answer, or a validation error with the `ValidateOne` issues of its body. |
| `Client.NasaSdk.GetRandomCall` | src/client.ts:90-100 | With the signal aborted: one attempt, `AbortError`, and nothing sent. Otherwise every request is the `getRandom` query, at most retries + 1. A success is the array validation of the last ok answer. The result is that of the last attempt, every earlier attempt failed retryably, and the call stops early only at an outcome it must not retry. There are attempts - 1 waits, each of `retryDelayMs`. Without an abort, a failure is the classified failure of the last answer, or a validation error with the `ValidateMany` issues of its body. |
| `Client.NasaSdk.GetRangeCall` | src/client.ts:102-117 | With the signal aborted: one attempt, `AbortError`, and nothing sent. Otherwise every request is the `getRange` query, at most retries + 1. A success is the array validation of the last ok answer. The result is that of the last attempt, every earlier attempt failed retryably, and the call stops early only at an outcome it must not retry. There are attempts - 1 waits, each of `retryDelayMs`. Without an abort, a failure is the classified failure of the last answer, or a validation error with the `ValidateMany` issues of its body. |
| `Client.NasaSdk.InvalidBodyRetried` | src/client.ts:63-64 | A body that never validates is retried like a transport error: retries + 1 attempts, then the validation issues. |
| `Client.NasaSdk.InFlightAbortNotRetried` | src/client.ts:41 | A transport call rejected with `AbortError` ends the public call after that one request, even when the signal was not seen as aborted beforehand. |
| `Client.NasaSdk.FetchesSampleRecord` | tests/client.test.ts:22-30 | An ok answer carrying the sample record yields that record, whose title is "Test Title". |
| `Client.NasaSdk.ServerErrorEveryTime` | tests/client.test.ts:32-40 | A 500 answer on every attempt: retries + 1 attempts, then the API failure with status 500 and its status text. |
| `Client.NasaSdk.UnrelatedBodyRejected` | tests/client.test.ts:42-49 | `{invalid: "data"}` on every attempt: retries + 1 attempts, then a validation error listing every required key. |

## Left out

- The `fetch` transport and the `URL`/`URLSearchParams` serialisation are not modelled. Percent-encoding follows section 5.2 of the WHATWG URL Standard (application/x-www-form-urlencoded serializing). The request is modelled as its ordered key/value query. Every request goes to the same endpoint, `https://api.nasa.gov/planetary/apod`, so the endpoint is not part of the model.
- `res.json()` is modelled as an already-decoded body, or `None` when the body is not well-formed JSON. JSON numbers are `real`s, with no floating-point behaviour.
- The schema library's URL syntax check is the parameter `isUrl`, because its rules belong to that library.
- The schema library's error messages are not modelled; only its issue paths and issue codes are. The codes follow zod 3, and the sources pin no version. `Required` stands for zod 3's `invalid_type` issue with `received: "undefined"`, whose message is "Required". Unknown keys are dropped, which is what its default object parser does; its other modes for extra keys are not modelled.
- `setTimeout` and wall-clock time are not modelled. Each wait is a log entry holding the delay requested, in milliseconds. `setTimeout` clamps a negative delay, and in Node one above 2^31-1, so for those values the entry is not the actual wait.
- Promises, `async`/`await` and `AbortSignal` are not modelled. Neither are the `DOMException` internals or the test for `error.name`: failures carry a tagged kind.
- The signal's state is one boolean for the whole public call. A signal that becomes aborted part-way is covered only when the transport rejects with `AbortError` (`InFlightAbortNotRetried`). A signal aborted during a wait, which makes the next `fetchRaw` throw, is not modelled.
- `Retry.WithRetry`: `retries` and `delay` are integers. JavaScript numbers may be fractional or `NaN`, and those budgets are not modelled. In the source, a `NaN` or positive `Infinity` budget is never `<= 0`, and subtracting 1 leaves it unchanged, so a failure that keeps being retryable is retried without end. A positive fractional budget r gives ⌈r⌉ + 1 attempts.
- `Text.IntToDecimal`: JavaScript writes `String(n)` in exponent notation when |n| >= 10^21. For example `getRandom(1e21)` sends `count=1e+21`, while the model sends 22 digits. Integers above 2^53 are not exact JavaScript numbers either. The model is faithful only for integers below 10^21 in magnitude that JavaScript holds exactly.
- `Client.ParamValue`: parameter values are strings, integers, booleans, `undefined` or `null`. Other values, such as objects or fractional numbers, are not modelled. Entries come in the order `Object.entries` gives them; this SDK never uses integer-like keys, which `Object.entries` would move to the front.
- `GetApod`, `GetRandom` and `GetRange` have no contract of their own. What they do is stated by the lemmas `GetApodCall`, `GetRandomCall` and `GetRangeCall` and by the scenario lemmas.
- Calls running at the same time are not modelled. The client's configuration is immutable, so they cannot interfere through it.
- The test harness, the mocks and `vitest.config.ts` are tooling only and are not modelled.
