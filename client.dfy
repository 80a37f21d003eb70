/**
 * The feed client `NasaSDK` (src/client.ts): configuration defaults, the
 * query it sends, how it reads the transport's answer, and the three public
 * operations, each run under the retry policy.
 *
 * The transport is a parameter: `transport(k, q)` is what the k-th call of
 * one public operation gets back when it sends query `q` (call 0 is the
 * first). The cancellation signal is the boolean `aborted`, fixed for one
 * public call. The URL test of the record schema is the parameter `isUrl`.
 */
module Client {
  import opened Wrappers
  import opened Json
  import opened Schema
  import opened Errors
  import opened Retry
  import opened Text

  /** The configuration the caller supplies; absent numbers take their defaults. */
  datatype Config = Config(apiKey: string, retries: Option<int>, retryDelayMs: Option<int>)

  const DefaultRetries := 3
  const DefaultRetryDelayMs := 500

  /**
   * A parameter value as JavaScript holds it before `String` is applied. A
   * number is an integer; its text is exact for magnitudes below 10^21.
   */
  datatype ParamValue = Undefined | Null | Str(s: string) | Num(n: int) | Bool(b: bool)

  /** The parameters of one request, in the order their entries are enumerated. */
  type Params = seq<(string, ParamValue)>

  /** The query of the request URL: its key/value pairs in order. */
  type Query = seq<(string, string)>

  /** What the transport hands back when it returns a response object. */
  datatype Response = Response(ok: bool, status: nat, statusText: string, body: Option<JsonValue>)

  /** The outcome of one transport call; `body` is `None` when the body is not well-formed JSON. */
  datatype TransportOutcome =
    | Rejected(error: Error)       // the transport call itself failed (for one, aborted while in flight)
    | NoResponse                   // it returned no response object
    | Responded(response: Response)

  type Transport = (nat, Query) -> TransportOutcome

  // ---------------------------------------------------------------------
  // The query
  // ---------------------------------------------------------------------

  /** A value that is sent: neither `undefined` nor `null`. */
  predicate IsPresent(v: ParamValue) {
    !v.Undefined? && !v.Null?
  }

  /** JavaScript's `String(v)` on a present value. */
  function ToText(v: ParamValue): string
    requires IsPresent(v)
  {
    match v
    case Str(s) => s
    case Num(n) => IntToDecimal(n)
    case Bool(b) => if b then "true" else "false"
  }

  /** The pairs the parameters add to the query: the present ones, in order, as text. */
  function Appended(ps: Params): (q: Query)
    ensures |q| <= |ps|
  {
    if ps == [] then []
    else (if IsPresent(ps[0].1) then [(ps[0].0, ToText(ps[0].1))] else []) + Appended(ps[1..])
  }

  /** The query of a request: the API key first, then the parameters. */
  function RequestQuery(apiKey: string, ps: Params): Query {
    [("api_key", apiKey)] + Appended(ps)
  }

  /** Parameters are appended in order: the pairs of a concatenation are the concatenated pairs. */
  lemma {:induction false} AppendedOfConcat(a: Params, b: Params)
    ensures Appended(a + b) == Appended(a) + Appended(b)
  {
    if a != [] {
      assert (a + b)[0] == a[0];
      assert (a + b)[1..] == a[1..] + b;
      AppendedOfConcat(a[1..], b);
    } else {
      assert a + b == b;
    }
  }

  /** A pair is sent exactly when some present parameter has that key and that text. */
  lemma {:induction false} AppendedMembers(ps: Params, key: string, text: string)
    ensures (key, text) in Appended(ps)
            <==> exists i :: 0 <= i < |ps| && ps[i].0 == key && IsPresent(ps[i].1) && ToText(ps[i].1) == text
  {
    if ps != [] {
      AppendedMembers(ps[1..], key, text);
      if (key, text) in Appended(ps[1..]) {
        var i :| 0 <= i < |ps[1..]| && ps[1..][i].0 == key && IsPresent(ps[1..][i].1) && ToText(ps[1..][i].1) == text;
        assert ps[i + 1] == ps[1..][i];
      }
      if exists i :: 0 <= i < |ps| && ps[i].0 == key && IsPresent(ps[i].1) && ToText(ps[i].1) == text {
        var i :| 0 <= i < |ps| && ps[i].0 == key && IsPresent(ps[i].1) && ToText(ps[i].1) == text;
        if i > 0 {
          assert ps[1..][i - 1] == ps[i];
        }
      }
    }
  }

  /** When every value is present, each parameter is sent, in place, as its text. */
  lemma {:induction false} AppendedAllPresent(ps: Params)
    requires forall i :: 0 <= i < |ps| ==> IsPresent(ps[i].1)
    ensures |Appended(ps)| == |ps|
    ensures forall i :: 0 <= i < |ps| ==> Appended(ps)[i] == (ps[i].0, ToText(ps[i].1))
  {
    if ps != [] {
      AppendedAllPresent(ps[1..]);
    }
  }

  /** A URL's query parameters, appended to in place. */
  class SearchParams {
    var entries: Query

    constructor ()
      ensures entries == []
    {
      entries := [];
    }

    method Append(key: string, value: string)
      modifies this
      ensures entries == old(entries) + [(key, value)]
    {
      entries := entries + [(key, value)];
    }
  }

  // ---------------------------------------------------------------------
  // Reading the transport's answer
  // ---------------------------------------------------------------------

  /**
   * The decoded body of an ok response is the only success; no response is a
   * network failure, a non-ok response an API failure with its status and
   * status text, a body that is not JSON a decode failure.
   */
  function Classify(o: TransportOutcome): (r: Result<JsonValue, Error>)
    ensures r.Success? <==> o.Responded? && o.response.ok && o.response.body.Some?
    ensures r.Success? ==> r.value == o.response.body.value
    ensures o.Rejected? ==> r == Failure(o.error)
    ensures o.NoResponse? ==> r == Failure(NetworkError)
    ensures o.Responded? && !o.response.ok ==> r == Failure(ApiError(o.response.status, o.response.statusText))
    ensures o.Responded? && o.response.ok && o.response.body.None? ==> r == Failure(DecodeError)
  {
    match o
    case Rejected(e) => Failure(e)
    case NoResponse => Failure(NetworkError)
    case Responded(res) =>
      if !res.ok then Failure(ApiError(res.status, res.statusText))
      else match res.body
        case None => Failure(DecodeError)
        case Some(json) => Success(json)
  }

  /** One attempt of a request: its result and the query it sent, if it reached the transport. */
  datatype Step<T> = Step(result: Result<T, Error>, sent: Option<Query>)

  /** One public call: its result, how many attempts it made, its waits, and the queries it sent, in order. */
  datatype Call<T> = Call(result: Result<T, Error>, attempts: nat, sleeps: seq<int>, requests: seq<Query>)

  /** The queries the first `n` attempts sent. */
  function SentLog<T>(step: nat -> Step<T>, n: nat): (log: seq<Query>)
    ensures |log| <= n
  {
    if n == 0 then []
    else SentLog(step, n - 1) + (if step(n - 1).sent.Some? then [step(n - 1).sent.value] else [])
  }

  /** Attempts that all send `q` send it once each. */
  lemma {:induction false} SentLogAll<T>(step: nat -> Step<T>, n: nat, q: Query)
    requires forall k :: step(k).sent == Some(q)
    ensures |SentLog(step, n)| == n
    ensures forall i :: 0 <= i < n ==> SentLog(step, n)[i] == q
  {
    if n > 0 {
      SentLogAll(step, n - 1, q);
    }
  }

  /** Attempts that never reach the transport send nothing. */
  lemma {:induction false} SentLogNone<T>(step: nat -> Step<T>, n: nat)
    requires forall k :: step(k).sent.None?
    ensures SentLog(step, n) == []
  {
    if n > 0 {
      SentLogNone(step, n - 1);
    }
  }

  /** A public call: the attempts run under the retry policy. */
  function Perform<T>(step: nat -> Step<T>, retries: int, delay: int, aborted: bool): Call<T> {
    var run := WithRetry((k: nat) => step(k).result, retries, delay, aborted);
    Call(run.result, run.attempts, run.sleeps, SentLog(step, run.attempts))
  }

  /**
   * The retry policy, seen from a public call: the result is that of the last
   * attempt; every earlier attempt failed retryably; the call stops before the
   * budget is spent only at an outcome it must not retry; between two
   * attempts it waits exactly `delay` once; it sends what its attempts send.
   */
  lemma PerformRetries<T>(step: nat -> Step<T>, retries: int, delay: int, aborted: bool)
    ensures var c := Perform(step, retries, delay, aborted);
            && 1 <= c.attempts <= Budget(retries) + 1
            && c.result == step(c.attempts - 1).result
            && (forall j :: 0 <= j < c.attempts - 1 ==> Retryable(step(j).result, aborted))
            && (c.attempts <= Budget(retries) ==> !Retryable(c.result, aborted))
            && |c.sleeps| == c.attempts - 1
            && (forall s :: s in c.sleeps ==> s == delay)
            && c.requests == SentLog(step, c.attempts)
  {
    var op := (k: nat) => step(k).result;
    var run := WithRetry(op, retries, delay, aborted);
    assert forall j :: 0 <= j < run.attempts - 1 ==> Retryable(step(j).result, aborted) by {
      forall j | 0 <= j < run.attempts - 1 ensures Retryable(step(j).result, aborted) {
        assert op(j) == step(j).result;
      }
    }
  }

  /** Attempts that each fail as cancelled without sending: one attempt, no wait, nothing sent. */
  lemma PerformCancelled<T>(step: nat -> Step<T>, retries: int, delay: int, aborted: bool)
    requires forall k :: step(k) == Step(Failure(AbortError), None)
    ensures Perform(step, retries, delay, aborted) == Call(Failure(AbortError), 1, [], [])
  {
    var op := (k: nat) => step(k).result;
    assert op(0) == Failure(AbortError);
    CancellationNotRetried(op, retries, delay, aborted);
    SentLogNone(step, 1);
  }

  /**
   * Attempts that all send `q`: one request per attempt, all with `q`, at most
   * `retries + 1` of them, and the call ends with the last attempt's result.
   */
  lemma PerformSends<T>(step: nat -> Step<T>, retries: int, delay: int, aborted: bool, q: Query)
    requires forall k :: step(k).sent == Some(q)
    ensures var c := Perform(step, retries, delay, aborted);
            && |c.requests| == c.attempts <= Budget(retries) + 1
            && (forall i :: 0 <= i < |c.requests| ==> c.requests[i] == q)
            && c.result == step(c.attempts - 1).result
  {
    var c := Perform(step, retries, delay, aborted);
    SentLogAll(step, c.attempts, q);
  }

  /** Attempts that all fail retryably: `retries + 1` of them, and the last failure is the result. */
  lemma PerformExhausts<T>(step: nat -> Step<T>, retries: nat, delay: int)
    requires forall k :: Retryable(step(k).result, false)
    ensures Perform(step, retries, delay, false).attempts == retries + 1
    ensures Perform(step, retries, delay, false).result == step(retries).result
    ensures |Perform(step, retries, delay, false).sleeps| == retries
  {
    var op := (k: nat) => step(k).result;
    PersistentFailureExhaustsBudget(op, retries, delay, false);
  }

  // ---------------------------------------------------------------------
  // The parameters of the public operations
  // ---------------------------------------------------------------------

  /** `getApod`: a `date` only when the date is given and not empty. */
  function ApodParams(date: Option<string>): Params {
    if date.Some? && date.value != "" then [("date", Str(date.value))] else []
  }

  /** `getRandom`: the `count`, 1 when not given. */
  function RandomParams(count: Option<int>): Params {
    [("count", Num(if count.Some? then count.value else 1))]
  }

  /** `getRange`: the two ends of the range. */
  function RangeParams(startDate: string, endDate: string): Params {
    [("start_date", Str(startDate)), ("end_date", Str(endDate))]
  }

  lemma ApodQuery(apiKey: string, date: Option<string>)
    ensures RequestQuery(apiKey, ApodParams(date))
            == [("api_key", apiKey)] + (if date.Some? && date.value != "" then [("date", date.value)] else [])
  {
  }

  lemma RandomQuery(apiKey: string, count: Option<int>)
    ensures RequestQuery(apiKey, RandomParams(count))
            == [("api_key", apiKey), ("count", IntToDecimal(if count.Some? then count.value else 1))]
  {
  }

  lemma RangeQuery(apiKey: string, startDate: string, endDate: string)
    ensures RequestQuery(apiKey, RangeParams(startDate, endDate))
            == [("api_key", apiKey), ("start_date", startDate), ("end_date", endDate)]
  {
    var ps := RangeParams(startDate, endDate);
    assert ps[1..] == [("end_date", Str(endDate))];
    assert ps[1..][1..] == [];
    assert Appended(ps[1..]) == [("end_date", endDate)];
    assert Appended(ps) == [("start_date", startDate), ("end_date", endDate)];
  }

  // ---------------------------------------------------------------------
  // The client
  // ---------------------------------------------------------------------

  class NasaSdk {
    const apiKey: string
    const retries: int
    const retryDelayMs: int

    /** Absent numbers take their defaults; supplied ones, zero included, are kept. */
    constructor (config: Config)
      ensures apiKey == config.apiKey
      ensures retries == (if config.retries.Some? then config.retries.value else DefaultRetries)
      ensures retryDelayMs == (if config.retryDelayMs.Some? then config.retryDelayMs.value else DefaultRetryDelayMs)
    {
      apiKey := config.apiKey;
      retries := if config.retries.Some? then config.retries.value else DefaultRetries;
      retryDelayMs := if config.retryDelayMs.Some? then config.retryDelayMs.value else DefaultRetryDelayMs;
    }

    /** The query of a request, built by appending to the URL's parameters one entry at a time. */
    method BuildQuery(params: Params) returns (q: Query)
      ensures q == RequestQuery(apiKey, params)
    {
      var search := new SearchParams();
      search.Append("api_key", apiKey);
      var i := 0;
      while i < |params|
        invariant 0 <= i <= |params|
        invariant search.entries == [("api_key", apiKey)] + Appended(params[..i])
      {
        var (key, value) := params[i];
        AppendedOfConcat(params[..i], [params[i]]);
        assert params[..i + 1] == params[..i] + [params[i]];
        if IsPresent(value) {
          search.Append(key, ToText(value));
        }
        i := i + 1;
      }
      assert params[..i] == params;
      q := search.entries;
    }

    /**
     * One fetch: an aborted signal fails before the transport is called;
     * otherwise the query is sent once and the answer classified.
     */
    function FetchRaw(params: Params, aborted: bool, call: Query -> TransportOutcome): (s: Step<JsonValue>)
      ensures aborted ==> s == Step(Failure(AbortError), None)
      ensures !aborted ==> s.sent == Some(RequestQuery(apiKey, params))
      ensures !aborted ==> s.result == Classify(call(RequestQuery(apiKey, params)))
      ensures s.result.Success? <==> !aborted && Classify(call(RequestQuery(apiKey, params))).Success?
      ensures s.result.Success? ==> call(RequestQuery(apiKey, params)).response.body == Some(s.result.value)
    {
      if aborted then Step(Failure(AbortError), None)
      else
        var query := RequestQuery(apiKey, params);
        Step(Classify(call(query)), Some(query))
    }

    /** A fetch whose body must be one record. */
    function RequestSingle(params: Params, aborted: bool, call: Query -> TransportOutcome, isUrl: string -> bool): (s: Step<Apod>)
      ensures s.sent == FetchRaw(params, aborted, call).sent
      ensures s.result.Success? <==>
                FetchRaw(params, aborted, call).result.Success?
                && ValidateOne(FetchRaw(params, aborted, call).result.value, isUrl).Success?
      ensures s.result.Success? ==> Agrees(s.result.value, FetchRaw(params, aborted, call).result.value)
      ensures FetchRaw(params, aborted, call).result.Failure? ==> s.result == Failure(FetchRaw(params, aborted, call).result.error)
      ensures s.result.Failure? && FetchRaw(params, aborted, call).result.Success? ==>
                s.result.error == ValidationError(ValidateOne(FetchRaw(params, aborted, call).result.value, isUrl).error)
    {
      var fetched := FetchRaw(params, aborted, call);
      match fetched.result
      case Failure(e) => Step(Failure(e), fetched.sent)
      case Success(json) =>
        match ValidateOne(json, isUrl)
        case Success(record) => Step(Success(record), fetched.sent)
        case Failure(issues) => Step(Failure(ValidationError(issues)), fetched.sent)
    }

    /** A fetch whose body must be an array of records. */
    function RequestArray(params: Params, aborted: bool, call: Query -> TransportOutcome, isUrl: string -> bool): (s: Step<seq<Apod>>)
      ensures s.sent == FetchRaw(params, aborted, call).sent
      ensures s.result.Success? <==>
                FetchRaw(params, aborted, call).result.Success?
                && ValidateMany(FetchRaw(params, aborted, call).result.value, isUrl).Success?
      ensures s.result.Success? ==>
                var items := FetchRaw(params, aborted, call).result.value.items;
                |s.result.value| == |items|
                && forall i :: 0 <= i < |items| ==> Agrees(s.result.value[i], items[i])
      ensures FetchRaw(params, aborted, call).result.Failure? ==> s.result == Failure(FetchRaw(params, aborted, call).result.error)
      ensures s.result.Failure? && FetchRaw(params, aborted, call).result.Success? ==>
                s.result.error == ValidationError(ValidateMany(FetchRaw(params, aborted, call).result.value, isUrl).error)
    {
      var fetched := FetchRaw(params, aborted, call);
      match fetched.result
      case Failure(e) => Step(Failure(e), fetched.sent)
      case Success(json) =>
        match ValidateMany(json, isUrl)
        case Success(records) => Step(Success(records), fetched.sent)
        case Failure(issues) => Step(Failure(ValidationError(issues)), fetched.sent)
    }

    /** A successful single request had an ok answer whose body validates to its record. */
    lemma RequestSingleSucceeded(params: Params, aborted: bool, call: Query -> TransportOutcome, isUrl: string -> bool)
      requires RequestSingle(params, aborted, call, isUrl).result.Success?
      ensures var o := call(RequestQuery(apiKey, params));
              && !aborted && o.Responded? && o.response.ok && o.response.body.Some?
              && ValidateOne(o.response.body.value, isUrl) == Success(RequestSingle(params, aborted, call, isUrl).result.value)
    {
      var body := FetchRaw(params, aborted, call).result.value;
      AgreesUnique(RequestSingle(params, aborted, call, isUrl).result.value, ValidateOne(body, isUrl).value, body);
    }

    /** A successful array request had an ok answer whose body validates to its records. */
    lemma RequestArraySucceeded(params: Params, aborted: bool, call: Query -> TransportOutcome, isUrl: string -> bool)
      requires RequestArray(params, aborted, call, isUrl).result.Success?
      ensures var o := call(RequestQuery(apiKey, params));
              && !aborted && o.Responded? && o.response.ok && o.response.body.Some?
              && ValidateMany(o.response.body.value, isUrl) == Success(RequestArray(params, aborted, call, isUrl).result.value)
    {
      var body := FetchRaw(params, aborted, call).result.value;
      ManyAgreesUnique(RequestArray(params, aborted, call, isUrl).result.value, body, isUrl);
    }

    /** The attempts of `getApod`. */
    function ApodStep(date: Option<string>, aborted: bool, transport: Transport, isUrl: string -> bool): nat -> Step<Apod> {
      (k: nat) => RequestSingle(ApodParams(date), aborted, (q: Query) => transport(k, q), isUrl)
    }

    /** The attempts of `getRandom`. */
    function RandomStep(count: Option<int>, aborted: bool, transport: Transport, isUrl: string -> bool): nat -> Step<seq<Apod>> {
      (k: nat) => RequestArray(RandomParams(count), aborted, (q: Query) => transport(k, q), isUrl)
    }

    /** The attempts of `getRange`. */
    function RangeStep(startDate: string, endDate: string, aborted: bool, transport: Transport, isUrl: string -> bool): nat -> Step<seq<Apod>> {
      (k: nat) => RequestArray(RangeParams(startDate, endDate), aborted, (q: Query) => transport(k, q), isUrl)
    }

    function GetApod(date: Option<string>, aborted: bool, transport: Transport, isUrl: string -> bool): Call<Apod> {
      Perform(ApodStep(date, aborted, transport, isUrl), retries, retryDelayMs, aborted)
    }

    function GetRandom(count: Option<int>, aborted: bool, transport: Transport, isUrl: string -> bool): Call<seq<Apod>> {
      Perform(RandomStep(count, aborted, transport, isUrl), retries, retryDelayMs, aborted)
    }

    function GetRange(startDate: string, endDate: string, aborted: bool, transport: Transport, isUrl: string -> bool): Call<seq<Apod>> {
      Perform(RangeStep(startDate, endDate, aborted, transport, isUrl), retries, retryDelayMs, aborted)
    }

    // -------------------------------------------------------------------
    // What a public call does
    // -------------------------------------------------------------------

    /**
     * `getApod`: with the signal aborted it fails as cancelled after one
     * attempt and never reaches the transport; otherwise every attempt sends
     * the same query, at most `retries + 1` of them, and a success is the
     * validation of the last answer's body.
     */
    lemma GetApodCall(date: Option<string>, aborted: bool, transport: Transport, isUrl: string -> bool)
      ensures var c := GetApod(date, aborted, transport, isUrl);
              aborted ==> c == Call(Failure(AbortError), 1, [], [])
      ensures var c := GetApod(date, aborted, transport, isUrl);
              !aborted ==>
                && |c.requests| == c.attempts <= Budget(retries) + 1
                && (forall i :: 0 <= i < |c.requests| ==> c.requests[i] == RequestQuery(apiKey, ApodParams(date)))
      ensures var c := GetApod(date, aborted, transport, isUrl);
              var o := transport(c.attempts - 1, RequestQuery(apiKey, ApodParams(date)));
              c.result.Success? ==>
                && !aborted && o.Responded? && o.response.ok && o.response.body.Some?
                && ValidateOne(o.response.body.value, isUrl) == Success(c.result.value)
      ensures var c := GetApod(date, aborted, transport, isUrl);
              var step := ApodStep(date, aborted, transport, isUrl);
              && c.result == step(c.attempts - 1).result
              && (forall j :: 0 <= j < c.attempts - 1 ==> Retryable(step(j).result, aborted))
              && (c.attempts <= Budget(retries) ==> !Retryable(c.result, aborted))
              && |c.sleeps| == c.attempts - 1
              && (forall s :: s in c.sleeps ==> s == retryDelayMs)
      ensures var c := GetApod(date, aborted, transport, isUrl);
              var o := Classify(transport(c.attempts - 1, RequestQuery(apiKey, ApodParams(date))));
              !aborted && c.result.Failure? ==>
                || (o.Failure? && c.result.error == o.error)
                || (o.Success? && c.result.error == ValidationError(ValidateOne(o.value, isUrl).error))
    {
      var step := ApodStep(date, aborted, transport, isUrl);
      PerformRetries(step, retries, retryDelayMs, aborted);
      var c := GetApod(date, aborted, transport, isUrl);
      if aborted {
        PerformCancelled(step, retries, retryDelayMs, aborted);
      } else {
        PerformSends(step, retries, retryDelayMs, aborted, RequestQuery(apiKey, ApodParams(date)));
        if c.result.Success? {
          var k := c.attempts - 1;
          RequestSingleSucceeded(ApodParams(date), aborted, (q: Query) => transport(k, q), isUrl);
        }
      }
    }

    /** `getRandom`: as `getApod`, with the `count` query and the array schema. */
    lemma GetRandomCall(count: Option<int>, aborted: bool, transport: Transport, isUrl: string -> bool)
      ensures var c := GetRandom(count, aborted, transport, isUrl);
              aborted ==> c == Call(Failure(AbortError), 1, [], [])
      ensures var c := GetRandom(count, aborted, transport, isUrl);
              !aborted ==>
                && |c.requests| == c.attempts <= Budget(retries) + 1
                && (forall i :: 0 <= i < |c.requests| ==> c.requests[i] == RequestQuery(apiKey, RandomParams(count)))
      ensures var c := GetRandom(count, aborted, transport, isUrl);
              var o := transport(c.attempts - 1, RequestQuery(apiKey, RandomParams(count)));
              c.result.Success? ==>
                && !aborted && o.Responded? && o.response.ok && o.response.body.Some?
                && ValidateMany(o.response.body.value, isUrl) == Success(c.result.value)
      ensures var c := GetRandom(count, aborted, transport, isUrl);
              var step := RandomStep(count, aborted, transport, isUrl);
              && c.result == step(c.attempts - 1).result
              && (forall j :: 0 <= j < c.attempts - 1 ==> Retryable(step(j).result, aborted))
              && (c.attempts <= Budget(retries) ==> !Retryable(c.result, aborted))
              && |c.sleeps| == c.attempts - 1
              && (forall s :: s in c.sleeps ==> s == retryDelayMs)
      ensures var c := GetRandom(count, aborted, transport, isUrl);
              var o := Classify(transport(c.attempts - 1, RequestQuery(apiKey, RandomParams(count))));
              !aborted && c.result.Failure? ==>
                || (o.Failure? && c.result.error == o.error)
                || (o.Success? && c.result.error == ValidationError(ValidateMany(o.value, isUrl).error))
    {
      var step := RandomStep(count, aborted, transport, isUrl);
      PerformRetries(step, retries, retryDelayMs, aborted);
      if aborted {
        PerformCancelled(step, retries, retryDelayMs, aborted);
      } else {
        var q := RequestQuery(apiKey, RandomParams(count));
        PerformSends(step, retries, retryDelayMs, aborted, q);
        var c := GetRandom(count, aborted, transport, isUrl);
        if c.result.Success? {
          var k := c.attempts - 1;
          RequestArraySucceeded(RandomParams(count), aborted, (q: Query) => transport(k, q), isUrl);
        }
      }
    }

    /** `getRange`: as `getRandom`, with the `start_date` and `end_date` query. */
    lemma GetRangeCall(startDate: string, endDate: string, aborted: bool, transport: Transport, isUrl: string -> bool)
      ensures var c := GetRange(startDate, endDate, aborted, transport, isUrl);
              aborted ==> c == Call(Failure(AbortError), 1, [], [])
      ensures var c := GetRange(startDate, endDate, aborted, transport, isUrl);
              !aborted ==>
                && |c.requests| == c.attempts <= Budget(retries) + 1
                && (forall i :: 0 <= i < |c.requests| ==> c.requests[i] == RequestQuery(apiKey, RangeParams(startDate, endDate)))
      ensures var c := GetRange(startDate, endDate, aborted, transport, isUrl);
              var o := transport(c.attempts - 1, RequestQuery(apiKey, RangeParams(startDate, endDate)));
              c.result.Success? ==>
                && !aborted && o.Responded? && o.response.ok && o.response.body.Some?
                && ValidateMany(o.response.body.value, isUrl) == Success(c.result.value)
      ensures var c := GetRange(startDate, endDate, aborted, transport, isUrl);
              var step := RangeStep(startDate, endDate, aborted, transport, isUrl);
              && c.result == step(c.attempts - 1).result
              && (forall j :: 0 <= j < c.attempts - 1 ==> Retryable(step(j).result, aborted))
              && (c.attempts <= Budget(retries) ==> !Retryable(c.result, aborted))
              && |c.sleeps| == c.attempts - 1
              && (forall s :: s in c.sleeps ==> s == retryDelayMs)
      ensures var c := GetRange(startDate, endDate, aborted, transport, isUrl);
              var o := Classify(transport(c.attempts - 1, RequestQuery(apiKey, RangeParams(startDate, endDate))));
              !aborted && c.result.Failure? ==>
                || (o.Failure? && c.result.error == o.error)
                || (o.Success? && c.result.error == ValidationError(ValidateMany(o.value, isUrl).error))
    {
      var step := RangeStep(startDate, endDate, aborted, transport, isUrl);
      PerformRetries(step, retries, retryDelayMs, aborted);
      if aborted {
        PerformCancelled(step, retries, retryDelayMs, aborted);
      } else {
        var q := RequestQuery(apiKey, RangeParams(startDate, endDate));
        PerformSends(step, retries, retryDelayMs, aborted, q);
        var c := GetRange(startDate, endDate, aborted, transport, isUrl);
        if c.result.Success? {
          var k := c.attempts - 1;
          RequestArraySucceeded(RangeParams(startDate, endDate), aborted, (q: Query) => transport(k, q), isUrl);
        }
      }
    }

    /**
     * A body that never validates is retried like a transport error: with a
     * non-negative budget `getApod` makes `retries + 1` attempts and fails
     * with the validation issues.
     */
    lemma InvalidBodyRetried(date: Option<string>, transport: Transport, isUrl: string -> bool, body: JsonValue)
      requires retries >= 0
      requires forall k, q :: transport(k, q) == Responded(Response(true, 200, "OK", Some(body)))
      requires ValidateOne(body, isUrl).Failure?
      ensures GetApod(date, false, transport, isUrl).attempts == retries + 1
      ensures GetApod(date, false, transport, isUrl).result == Failure(ValidationError(ValidateOne(body, isUrl).error))
    {
      var step := ApodStep(date, false, transport, isUrl);
      forall k: nat ensures Retryable(step(k).result, false) {
        assert step(k).result == Failure(ValidationError(ValidateOne(body, isUrl).error));
      }
      PerformExhausts(step, retries, retryDelayMs);
    }

    /** A transport call aborted in flight ends the call at once, even with the signal not yet observed aborted. */
    lemma InFlightAbortNotRetried(date: Option<string>, transport: Transport, isUrl: string -> bool)
      requires transport(0, RequestQuery(apiKey, ApodParams(date))) == Rejected(AbortError)
      ensures GetApod(date, false, transport, isUrl)
              == Call(Failure(AbortError), 1, [], [RequestQuery(apiKey, ApodParams(date))])
    {
      var step := ApodStep(date, false, transport, isUrl);
      var op := (k: nat) => step(k).result;
      assert op(0) == Failure(AbortError);
      CancellationNotRetried(op, retries, retryDelayMs, false);
    }

    /** An ok response carrying a well-formed record yields that record. */
    lemma FetchesSampleRecord(transport: Transport, isUrl: string -> bool)
      requires UrlsValid(SampleRecord, isUrl)
      requires var o := transport(0, RequestQuery(apiKey, []));
               o.Responded? && o.response.ok && o.response.body == Some(ToJson(SampleRecord))
      ensures GetApod(None, false, transport, isUrl).result == Success(SampleRecord)
      ensures GetApod(None, false, transport, isUrl).result.value.title == "Test Title"
    {
      RoundTrip(SampleRecord, isUrl);
      var step := ApodStep(None, false, transport, isUrl);
      assert step(0).result == Success(SampleRecord);
      FirstSuccessReturned((k: nat) => step(k).result, retries, retryDelayMs, false);
    }

    /**
     * A server that answers 500 every time: `retries + 1` attempts, then the
     * API failure with that status and status text.
     */
    lemma ServerErrorEveryTime(date: Option<string>, transport: Transport, isUrl: string -> bool)
      requires retries >= 0
      requires forall k, q :: transport(k, q) == Responded(Response(false, 500, "Internal Server Error", None))
      ensures GetApod(date, false, transport, isUrl).attempts == retries + 1
      ensures GetApod(date, false, transport, isUrl).result == Failure(ApiError(500, "Internal Server Error"))
    {
      var step := ApodStep(date, false, transport, isUrl);
      forall k: nat ensures step(k).result == Failure(ApiError(500, "Internal Server Error")) {
        assert transport(k, RequestQuery(apiKey, ApodParams(date))).response.ok == false;
      }
      PerformExhausts(step, retries, retryDelayMs);
    }

    /** A body with none of the record's keys fails validation on every attempt, reporting every required key. */
    lemma UnrelatedBodyRejected(date: Option<string>, transport: Transport, isUrl: string -> bool)
      requires retries >= 0
      requires forall k, q :: transport(k, q) == Responded(Response(true, 200, "OK", Some(JObject(map["invalid" := JString("data")]))))
      ensures GetApod(date, false, transport, isUrl).attempts == retries + 1
      ensures GetApod(date, false, transport, isUrl).result
              == Failure(ValidationError([Issue([Key("date")], Required), Issue([Key("title")], Required),
                                          Issue([Key("explanation")], Required), Issue([Key("media_type")], Required),
                                          Issue([Key("url")], Required), Issue([Key("service_version")], Required)]))
    {
      UnrelatedObjectRejected(isUrl);
      InvalidBodyRetried(date, transport, isUrl, JObject(map["invalid" := JString("data")]));
    }
  }

  /** The record the client's tests serve. */
  const SampleRecord := Apod("2025-12-29", "Test Title", "Test explanation", Image,
                             "https://example.com/image.jpg", Some("https://example.com/image_hd.jpg"), "v1")

  /** Two record sequences that agree pointwise with the same array are equal to its validation. */
  lemma ManyAgreesUnique(records: seq<Apod>, v: JsonValue, isUrl: string -> bool)
    requires v.JArray? && ValidateMany(v, isUrl).Success?
    requires |records| == |v.items|
    requires forall i :: 0 <= i < |v.items| ==> Agrees(records[i], v.items[i])
    ensures ValidateMany(v, isUrl) == Success(records)
  {
    var r := ValidateMany(v, isUrl).value;
    forall i | 0 <= i < |records| ensures records[i] == r[i] {
      assert ValidateOne(v.items[i], isUrl) == Success(r[i]);
      AgreesUnique(records[i], r[i], v.items[i]);
    }
    assert records == r;
  }
}
