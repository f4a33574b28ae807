/** The HTTP client wrapper (client/PipedriveClient.java): the URL each call is
    sent to, the retry interceptor around every exchange, and the mapping of
    the final HTTP response to a decoded envelope or an error.

    The transport is not modelled. What the n-th `chain.proceed(request)` of a
    call does is the input `proceed(n)`, and whether the backoff sleep after
    attempt n is interrupted is the input `interrupted(n)`. JSON decoding is
    the input `decode`. */
module Client {
  import opened Model
  import opened Text

  /** `BASE_URL`: the API root of the two-argument client. */
  const BaseUrl: string := "https://api.pipedrive.com/v1"

  /** `maxRetries`: the number of attempts, the first one included. */
  const MaxRetries: nat := 3

  // ---------------------------------------------------------------- URL

  /** `buildUrl`: the token is appended unencoded, after `&` when the endpoint
      already has a query string and after `?` otherwise. */
  function BuildUrl(base: string, endpoint: string, token: string): (url: string)
    ensures |url| == |base| + |endpoint| + 1 + |"api_token="| + |token|
    ensures url[..|base| + |endpoint|] == base + endpoint
    ensures url[|base| + |endpoint|] == (if '?' in endpoint then '&' else '?')
    ensures url[|base| + |endpoint| + 1..] == "api_token=" + token
  {
    var separator := if '?' in endpoint then "&" else "?";
    base + endpoint + separator + "api_token=" + token
  }

  /** Position of the first `c` in `s`, or `|s|` when there is none. */
  function IndexOf(s: string, c: char): (k: nat)
    ensures k <= |s|
    ensures k < |s| <==> c in s
    ensures k < |s| ==> s[k] == c
    ensures forall j :: 0 <= j < k ==> s[j] != c
  {
    if s == [] then 0 else if s[0] == c then 0 else 1 + IndexOf(s[1..], c)
  }

  lemma IndexOfConcat(a: string, b: string, c: char)
    ensures IndexOf(a + b, c) == if c in a then IndexOf(a, c) else |a| + IndexOf(b, c)
  {
    var k := IndexOf(a + b, c);
    if c in a {
      var i := IndexOf(a, c);
      assert (a + b)[i] == c;
    } else {
      var i := IndexOf(b, c);
      assert forall j :: 0 <= j < |a| ==> (a + b)[j] != c;
      if i < |b| { assert (a + b)[|a| + i] == c; }
      assert forall j :: |a| <= j < |a| + i ==> (a + b)[j] == b[j - |a|];
    }
  }

  lemma IndexOfPrefix(s: string, n: nat, c: char)
    requires n <= |s|
    ensures IndexOf(s, c) == if c in s[..n] then IndexOf(s[..n], c) else n + IndexOf(s[n..], c)
  {
    assert s == s[..n] + s[n..];
    IndexOfConcat(s[..n], s[n..], c);
  }

  /** What a URL parser sees when neither the base nor the endpoint has a
      query string: the first `?` is the separator appended after the
      endpoint, and the query string is the token parameter alone. */
  lemma BuildUrlQueryAlone(base: string, endpoint: string, token: string)
    requires '?' !in base && '?' !in endpoint
    ensures var url := BuildUrl(base, endpoint, token);
            var q := IndexOf(url, '?');
            && q == |base| + |endpoint|
            && url[..q] == base + endpoint
            && url[q + 1..] == "api_token=" + token
  {
    var url := BuildUrl(base, endpoint, token);
    var n := |base| + |endpoint|;
    IndexOfConcat(base, endpoint, '?');
    IndexOfPrefix(url, n, '?');
    assert url[n..][0] == '?';
  }

  /** What a URL parser sees when the endpoint brings its own query string
      (and the base has none): the path ends at the endpoint's `?`, and the
      token parameter is appended to that query string after `&`. */
  lemma BuildUrlQueryExtended(base: string, endpoint: string, token: string)
    requires '?' !in base && '?' in endpoint
    ensures IndexOf(BuildUrl(base, endpoint, token), '?') == |base| + IndexOf(endpoint, '?')
    ensures var url, p := BuildUrl(base, endpoint, token), IndexOf(endpoint, '?');
            url[..|base| + p] == base + endpoint[..p]
    ensures var url, p := BuildUrl(base, endpoint, token), IndexOf(endpoint, '?');
            url[|base| + p + 1..] == endpoint[p + 1..] + "&api_token=" + token
  {
    ExtendedSeparator(base, endpoint, token);
    ExtendedPathPart(base, endpoint, token);
    ExtendedQueryPart(base, endpoint, token);
  }

  lemma ExtendedPathPart(base: string, endpoint: string, token: string)
    requires '?' !in base && '?' in endpoint
    ensures var url, p := BuildUrl(base, endpoint, token), IndexOf(endpoint, '?');
            url[..|base| + p] == base + endpoint[..p]
  {
    var url, p := BuildUrl(base, endpoint, token), IndexOf(endpoint, '?');
    var n := |base| + |endpoint|;
    SliceAround(url, n, |base| + p);
    ExtendedPath(base, endpoint, url[..n]);
  }

  lemma ExtendedQueryPart(base: string, endpoint: string, token: string)
    requires '?' !in base && '?' in endpoint
    ensures var url, p := BuildUrl(base, endpoint, token), IndexOf(endpoint, '?');
            url[|base| + p + 1..] == endpoint[p + 1..] + "&api_token=" + token
  {
    var url, p := BuildUrl(base, endpoint, token), IndexOf(endpoint, '?');
    var n := |base| + |endpoint|;
    QueryAfterEndpointSeparator(url, base, endpoint);
    ExtendedQuery(url, n, |base| + p, endpoint[p + 1..], token);
  }

  /** In any text that starts with `base + endpoint`, what follows the
      endpoint's first `?` is the rest of the endpoint, then the remainder. */
  lemma QueryAfterEndpointSeparator(url: string, base: string, endpoint: string)
    requires '?' !in base && '?' in endpoint
    requires |base| + |endpoint| < |url| && url[..|base| + |endpoint|] == base + endpoint
    ensures var n, p := |base| + |endpoint|, IndexOf(endpoint, '?');
            url[|base| + p + 1..] == endpoint[p + 1..] + url[n..]
  {
    var p := IndexOf(endpoint, '?');
    var n, q := |base| + |endpoint|, |base| + p;
    var prefix := url[..n];
    SliceAround(url, n, q);
    ExtendedPath(base, endpoint, prefix);
  }

  lemma ExtendedSeparator(base: string, endpoint: string, token: string)
    requires '?' !in base && '?' in endpoint
    ensures IndexOf(BuildUrl(base, endpoint, token), '?') == |base| + IndexOf(endpoint, '?')
  {
    var url := BuildUrl(base, endpoint, token);
    var n := |base| + |endpoint|;
    IndexOfConcat(base, endpoint, '?');
    IndexOfPrefix(url, n, '?');
    assert url[..n] == base + endpoint;
  }

  lemma ExtendedPath(base: string, endpoint: string, prefix: string)
    requires '?' !in base && '?' in endpoint && prefix == base + endpoint
    ensures prefix[..|base| + IndexOf(endpoint, '?')] == base + endpoint[..IndexOf(endpoint, '?')]
    ensures prefix[|base| + IndexOf(endpoint, '?') + 1..] == endpoint[IndexOf(endpoint, '?') + 1..]
  {
  }

  lemma ExtendedQuery(url: string, n: nat, q: nat, e: string, token: string)
    requires q < n < |url|
    requires url[n] == '&' && url[n + 1..] == "api_token=" + token
    requires url[q + 1..] == e + url[n..]
    ensures url[q + 1..] == e + "&api_token=" + token
  {
    assert url[n..] == "&" + ("api_token=" + token);
    assert "&" + ("api_token=" + token) == "&api_token=" + token;
  }

  lemma SliceAround(s: string, n: nat, q: nat)
    requires q < n <= |s|
    ensures s[..q] == s[..n][..q]
    ensures s[q + 1..] == s[..n][q + 1..] + s[n..]
  {
  }

  // ---------------------------------------------------------------- retry

  datatype HttpResponse = HttpResponse(code: nat, body: Option<string>)

  /** The effect of one `chain.proceed(request)`: a response, or an IOException. */
  datatype Exchange = Answered(response: HttpResponse) | IoFailure(message: string)

  /** The IOException the interceptor lets out: one thrown by the last
      attempt, rethrown as is, or `IOException("Request interrupted")`. */
  datatype IoError = Transport(message: string) | Interrupted

  function IoErrorMessage(e: IoError): string
  {
    match e
    case Transport(m) => m
    case Interrupted => "Request interrupted"
  }

  /** How `retryInterceptor` ends: it returns a response or throws. */
  datatype Outcome = Returned(response: HttpResponse) | Thrown(error: IoError)

  /** One run of the interceptor: how many times it called `chain.proceed`,
      the attempts whose response it closed before backing off, the sleep
      durations it asked for (in milliseconds), and how it ended. */
  datatype RetryTrace = RetryTrace(attempts: nat, closed: seq<nat>, waits: seq<nat>, outcome: Outcome)

  /** HTTP 429 or any status of 500 and above. */
  predicate Retryable(code: nat)
  {
    code == 429 || code >= 500
  }

  function Pow2(n: nat): nat
  {
    if n == 0 then 1 else 2 * Pow2(n - 1)
  }

  /** `(int) Math.pow(2, tryCount) * 1000`; the power is exact for the counts that occur. */
  function BackoffMillis(tryCount: nat): nat
  {
    Pow2(tryCount) * 1000
  }

  /** The interceptor's loop from the top of the iteration in which
      `tryCount` attempts have already failed. */
  function RetryFrom(proceed: nat -> Exchange, interrupted: nat -> bool, tryCount: nat,
                     closed: seq<nat>, waits: seq<nat>): RetryTrace
    requires tryCount < MaxRetries
    decreases MaxRetries - tryCount
  {
    match proceed(tryCount)
    case Answered(response) =>
      if Retryable(response.code) && tryCount < MaxRetries - 1 then
        var closed', waits' := closed + [tryCount], waits + [BackoffMillis(tryCount)];
        if interrupted(tryCount) then RetryTrace(tryCount + 1, closed', waits', Thrown(Interrupted))
        else RetryFrom(proceed, interrupted, tryCount + 1, closed', waits')
      else
        RetryTrace(tryCount + 1, closed, waits, Returned(response))
    case IoFailure(message) =>
      if tryCount >= MaxRetries - 1 then RetryTrace(tryCount + 1, closed, waits, Thrown(Transport(message)))
      else RetryFrom(proceed, interrupted, tryCount + 1, closed, waits)
  }

  /** The run of the interceptor for one request. */
  function Retry(proceed: nat -> Exchange, interrupted: nat -> bool): RetryTrace
  {
    RetryFrom(proceed, interrupted, 0, [], [])
  }

  /** `retryInterceptor`. The loop never runs out: every path through the
      iteration with `tryCount == MaxRetries - 1` returns or throws, so the
      trailing `return response` cannot be reached. */
  method Intercept(proceed: nat -> Exchange, interrupted: nat -> bool) returns (trace: RetryTrace)
    ensures trace == Retry(proceed, interrupted)
    ensures 1 <= trace.attempts <= MaxRetries
  {
    var tryCount: nat := 0;
    var closed: seq<nat> := [];
    var waits: seq<nat> := [];
    while tryCount < MaxRetries
      invariant tryCount < MaxRetries
      invariant RetryFrom(proceed, interrupted, tryCount, closed, waits) == Retry(proceed, interrupted)
      decreases MaxRetries - tryCount
    {
      match proceed(tryCount) {
        case Answered(response) =>
          if Retryable(response.code) {
            if tryCount < MaxRetries - 1 {
              closed := closed + [tryCount];
              var waitTime := BackoffMillis(tryCount);
              waits := waits + [waitTime];
              if interrupted(tryCount) {
                return RetryTrace(tryCount + 1, closed, waits, Thrown(Interrupted));
              }
              tryCount := tryCount + 1;
              continue;
            }
          }
          return RetryTrace(tryCount + 1, closed, waits, Returned(response));
        case IoFailure(message) =>
          if tryCount >= MaxRetries - 1 {
            return RetryTrace(tryCount + 1, closed, waits, Thrown(Transport(message)));
          }
          tryCount := tryCount + 1;
      }
    }
    assert false;
  }

  /** Attempt `k` ends the loop once it is reached: it is the last one
      allowed, or it got a response that is not retried, or the backoff sleep
      after it was interrupted. */
  predicate Decisive(proceed: nat -> Exchange, interrupted: nat -> bool, k: nat)
  {
    || k >= MaxRetries - 1
    || (proceed(k).Answered? && (!Retryable(proceed(k).response.code) || interrupted(k)))
  }

  /** Attempt `k` got a retryable status while a retry is still allowed: its
      response is closed and a backoff sleep begins. */
  predicate BacksOff(proceed: nat -> Exchange, k: nat)
  {
    k < MaxRetries - 1 && proceed(k).Answered? && Retryable(proceed(k).response.code)
  }

  /** How the interceptor ends when attempt `k` is the decisive one. */
  function FinalOutcome(proceed: nat -> Exchange, k: nat): Outcome
  {
    match proceed(k)
    case Answered(response) => if BacksOff(proceed, k) then Thrown(Interrupted) else Returned(response)
    case IoFailure(message) => Thrown(Transport(message))
  }

  /** The attempts below `n` that back off, in increasing order. */
  function BackoffsBefore(proceed: nat -> Exchange, n: nat): seq<nat>
  {
    if n == 0 then [] else BackoffsBefore(proceed, n - 1) + (if BacksOff(proceed, n - 1) then [n - 1] else [])
  }

  /** `waits` holds one backoff per closed response, `2^k * 1000` ms after attempt `k`. */
  predicate WaitsMatch(closed: seq<nat>, waits: seq<nat>)
  {
    |waits| == |closed| && forall j :: 0 <= j < |closed| ==> waits[j] == BackoffMillis(closed[j])
  }

  /** The declarative reading of the interceptor's run. */
  predicate Characterizes(proceed: nat -> Exchange, interrupted: nat -> bool, t: RetryTrace)
  {
    && 1 <= t.attempts <= MaxRetries
    && Decisive(proceed, interrupted, t.attempts - 1)
    && (forall k :: 0 <= k < t.attempts - 1 ==> !Decisive(proceed, interrupted, k))
    && t.outcome == FinalOutcome(proceed, t.attempts - 1)
    && t.closed == BackoffsBefore(proceed, t.attempts)
    && WaitsMatch(t.closed, t.waits)
  }

  lemma {:induction false} RetryFromCharacterized(proceed: nat -> Exchange, interrupted: nat -> bool,
                                                  tryCount: nat, closed: seq<nat>, waits: seq<nat>)
    requires tryCount < MaxRetries
    requires forall k :: 0 <= k < tryCount ==> !Decisive(proceed, interrupted, k)
    requires closed == BackoffsBefore(proceed, tryCount)
    requires WaitsMatch(closed, waits)
    ensures var t := RetryFrom(proceed, interrupted, tryCount, closed, waits);
            tryCount < t.attempts && Characterizes(proceed, interrupted, t)
    decreases MaxRetries - tryCount
  {
    var closed' := closed + [tryCount];
    var waits' := waits + [BackoffMillis(tryCount)];
    match proceed(tryCount)
    case Answered(response) =>
      if Retryable(response.code) && tryCount < MaxRetries - 1 {
        assert BackoffsBefore(proceed, tryCount + 1) == closed';
        assert WaitsMatch(closed', waits');
        if !interrupted(tryCount) {
          RetryFromCharacterized(proceed, interrupted, tryCount + 1, closed', waits');
        }
      } else {
        assert BackoffsBefore(proceed, tryCount + 1) == closed;
      }
    case IoFailure(message) =>
      assert BackoffsBefore(proceed, tryCount + 1) == closed;
      if tryCount < MaxRetries - 1 {
        RetryFromCharacterized(proceed, interrupted, tryCount + 1, closed, waits);
      }
  }

  /** The interceptor stops at the first decisive attempt and at no other;
      its outcome is that attempt's; the responses it closed are exactly
      those of the earlier retryable statuses (and of the attempt whose
      backoff was interrupted), each followed by its `2^k * 1000` ms wait. */
  lemma RetryCharacterized(proceed: nat -> Exchange, interrupted: nat -> bool)
    ensures Characterizes(proceed, interrupted, Retry(proceed, interrupted))
  {
    RetryFromCharacterized(proceed, interrupted, 0, [], []);
  }

  function TotalWait(waits: seq<nat>): nat
  {
    if waits == [] then 0 else waits[0] + TotalWait(waits[1..])
  }

  /** The only waits that occur are 1000 ms after the first attempt and
      2000 ms after the second, so a request waits at most 3000 ms in all. */
  lemma RetryWaitSchedule(proceed: nat -> Exchange, interrupted: nat -> bool)
    ensures var w := Retry(proceed, interrupted).waits;
            (w == [] || w == [1000] || w == [2000] || w == [1000, 2000]) && TotalWait(w) <= 3000
  {
    var t := Retry(proceed, interrupted);
    RetryCharacterized(proceed, interrupted);
    assert !BacksOff(proceed, 2);
    assert BackoffsBefore(proceed, 3) == BackoffsBefore(proceed, 2);
    assert BackoffMillis(0) == 1000 && BackoffMillis(1) == 2000;
    assert TotalWait([1000, 2000]) == 3000;
  }

  /** A status that is neither 429 nor 5xx (a 2xx, a 404) on the first
      attempt is returned at once: one attempt, nothing closed, no wait. */
  lemma NonRetryableReturnedAtOnce(proceed: nat -> Exchange, interrupted: nat -> bool)
    requires proceed(0).Answered? && !Retryable(proceed(0).response.code)
    ensures Retry(proceed, interrupted) == RetryTrace(1, [], [], Returned(proceed(0).response))
  {
  }

  /** A retryable status on the third attempt is returned unchanged, and an
      IOException there is rethrown: nothing is tried a fourth time. */
  lemma LastAttemptNotRetried(proceed: nat -> Exchange, interrupted: nat -> bool)
    requires Retry(proceed, interrupted).attempts == MaxRetries
    ensures var t := Retry(proceed, interrupted);
            && (proceed(2).Answered? ==> t.outcome == Returned(proceed(2).response))
            && (proceed(2).IoFailure? ==> t.outcome == Thrown(Transport(proceed(2).message)))
  {
    RetryCharacterized(proceed, interrupted);
  }

  /** An IOException on an attempt that is not the last, reached without an
      earlier decisive attempt, is retried at once: the next attempt is made,
      no response is closed for it and no wait follows it. */
  lemma IoFailureRetriedWithoutWait(proceed: nat -> Exchange, interrupted: nat -> bool, k: nat)
    requires k < MaxRetries - 1
    requires proceed(k).IoFailure?
    requires forall j :: 0 <= j < k ==> !Decisive(proceed, interrupted, j)
    ensures Retry(proceed, interrupted).attempts > k + 1
    ensures k !in Retry(proceed, interrupted).closed
    ensures |Retry(proceed, interrupted).waits| == |Retry(proceed, interrupted).closed|
  {
    RetryCharacterized(proceed, interrupted);
    BackoffsBeforeOnly(proceed, Retry(proceed, interrupted).attempts);
  }

  lemma {:induction false} BackoffsBeforeOnly(proceed: nat -> Exchange, n: nat)
    ensures forall j :: 0 <= j < |BackoffsBefore(proceed, n)| ==>
              BackoffsBefore(proceed, n)[j] < n && BacksOff(proceed, BackoffsBefore(proceed, n)[j])
  {
    if n > 0 { BackoffsBeforeOnly(proceed, n - 1); }
  }

  /** An interrupted backoff sleep ends the loop: it throws
      "Request interrupted" and `chain.proceed` is not called again. */
  lemma InterruptStopsRetrying(proceed: nat -> Exchange, interrupted: nat -> bool, k: nat)
    requires k < MaxRetries
    requires BacksOff(proceed, k) && interrupted(k)
    requires forall j :: 0 <= j < k ==> !Decisive(proceed, interrupted, j)
    ensures Retry(proceed, interrupted).attempts == k + 1
    ensures Retry(proceed, interrupted).outcome == Thrown(Interrupted)
    ensures IoErrorMessage(Retry(proceed, interrupted).outcome.error) == "Request interrupted"
  {
    var t := Retry(proceed, interrupted);
    RetryCharacterized(proceed, interrupted);
    assert Decisive(proceed, interrupted, k);
  }

  /** A server that answers a retryable status every time, with no
      interruption: three attempts, the two backoffs, and the third response
      handed back unchanged. */
  lemma AlwaysRetryableExhaustsAttempts(proceed: nat -> Exchange, interrupted: nat -> bool)
    requires forall k :: 0 <= k < MaxRetries ==> proceed(k).Answered? && Retryable(proceed(k).response.code)
    requires forall k :: 0 <= k < MaxRetries ==> !interrupted(k)
    ensures Retry(proceed, interrupted)
            == RetryTrace(3, [0, 1], [1000, 2000], Returned(proceed(2).response))
  {
    assert proceed(0).Answered? && proceed(1).Answered? && proceed(2).Answered?;
    assert !interrupted(0) && !interrupted(1);
    assert BackoffMillis(0) == 1000 && BackoffMillis(1) == 2000;
  }

  // ---------------------------------------------------------------- execute

  /** `Response.isSuccessful()`: a status in [200, 300). */
  predicate IsSuccessful(code: nat)
  {
    200 <= code < 300
  }

  /** The IOExceptions `executeRequest` lets out. */
  datatype ClientError =
    | Io(cause: IoError)                      // from the interceptor
    | RequestFailed(code: nat, body: string)  // a non-2xx final response
    | DecodeFailed                            // `readValue` rejected the body

  /** The envelope returned to a task, or the exception it sees. */
  type Reply<+T> = Result<Envelope<T>, ClientError>

  /** The message of the exception for a non-2xx response. */
  function FailureMessage(code: nat, body: string): string
  {
    "Pipedrive API request failed: " + NatToString(code) + " - " + body
  }

  /** `response.body() != null ? response.body().string() : ""`. */
  function BodyText(body: Option<string>): string
  {
    match body
    case Some(text) => text
    case None => ""
  }

  /** `executeRequest` after the interceptor has finished. */
  function ExecuteRequest<T>(outcome: Outcome, decode: string -> Option<Envelope<T>>): (reply: Reply<T>)
    ensures reply.Ok? ==> outcome.Returned? && IsSuccessful(outcome.response.code)
                          && decode(BodyText(outcome.response.body)) == Some(reply.value)
    ensures outcome.Thrown? <==> reply.Err? && reply.error.Io?
    ensures outcome.Returned? && !IsSuccessful(outcome.response.code) <==> reply.Err? && reply.error.RequestFailed?
    ensures outcome.Returned? && IsSuccessful(outcome.response.code) ==>
              (reply.Ok? <==> decode(BodyText(outcome.response.body)).Some?)
  {
    match outcome
    case Thrown(e) => Err(Io(e))
    case Returned(response) =>
      var text := BodyText(response.body);
      if !IsSuccessful(response.code) then Err(RequestFailed(response.code, text))
      else match decode(text)
        case Some(envelope) => Ok(envelope)
        case None => Err(DecodeFailed)
  }

  /** A non-2xx final response fails with its code and body, a missing body
      counting as empty, whatever the body holds: it is not decoded. */
  lemma Non2xxCarriesCodeAndBody<T>(response: HttpResponse, decode: string -> Option<Envelope<T>>)
    requires !IsSuccessful(response.code)
    ensures ExecuteRequest(Returned(response), decode) == Err(RequestFailed(response.code, BodyText(response.body)))
    ensures response.body.None? ==> FailureMessage(response.code, BodyText(response.body))
                                    == "Pipedrive API request failed: " + NatToString(response.code) + " - "
  {
  }

  lemma DigitsBeforeSeparator(x1: string, x2: string, b1: string, b2: string)
    requires AllDigits(x1) && AllDigits(x2)
    requires x1 + " - " + b1 == x2 + " - " + b2
    ensures x1 == x2 && b1 == b2
  {
    // the first blank ends the digits on either side
    var s := x1 + " - " + b1;
    assert s == x1 + (" - " + b1) == x2 + (" - " + b2);
    IndexOfConcat(x1, " - " + b1, ' ');
    IndexOfConcat(x2, " - " + b2, ' ');
    assert ' ' !in x1 && ' ' !in x2;
    assert |x1| == IndexOf(s, ' ') == |x2|;
    assert x1 == s[..|x1|] == x2;
    assert b1 == s[|x1| + 3..] == b2;
  }

  /** The failure message determines the status code and the body it reports. */
  lemma FailureMessageInjective(c1: nat, b1: string, c2: nat, b2: string)
    requires FailureMessage(c1, b1) == FailureMessage(c2, b2)
    ensures c1 == c2 && b1 == b2
  {
    var prefix := "Pipedrive API request failed: ";
    var m1 := NatToString(c1) + " - " + b1;
    var m2 := NatToString(c2) + " - " + b2;
    assert FailureMessage(c1, b1) == prefix + m1;
    assert FailureMessage(c2, b2) == prefix + m2;
    assert m1 == FailureMessage(c1, b1)[|prefix|..];
    assert m2 == FailureMessage(c2, b2)[|prefix|..];
    DigitsBeforeSeparator(NatToString(c1), NatToString(c2), b1, b2);
    NatToStringRoundTrip(c1);
    NatToStringRoundTrip(c2);
  }

  /** The request `get`, `post`, `put` and `delete` build: the URL from
      `buildUrl`, and a JSON body for POST and PUT only. */
  datatype HttpRequest<+B> = HttpRequest(verb: HttpMethod, url: string, body: Option<B>)

  function NewRequest<B>(base: string, token: string, call: ApiCall<B>): (r: HttpRequest<B>)
  {
    HttpRequest(call.verb, BuildUrl(base, call.path, token),
                if call.verb == POST || call.verb == PUT then call.body else None)
  }

  /** One call of `get`/`post`/`put`/`delete`: build the request, run it
      through the interceptor, and map the final response. */
  method Execute<B, T>(base: string, token: string, call: ApiCall<B>,
                       proceed: nat -> Exchange, interrupted: nat -> bool,
                       decode: string -> Option<Envelope<T>>)
    returns (request: HttpRequest<B>, trace: RetryTrace, reply: Reply<T>)
    ensures request.verb == call.verb && request.url == BuildUrl(base, call.path, token)
    ensures request.body == (if call.verb == POST || call.verb == PUT then call.body else None)
    ensures trace == Retry(proceed, interrupted) && 1 <= trace.attempts <= MaxRetries
    ensures reply == ExecuteRequest(trace.outcome, decode)
  {
    request := NewRequest(base, token, call);
    trace := Intercept(proceed, interrupted);
    reply := ExecuteRequest(trace.outcome, decode);
  }

  // ---------------------------------------------------------------- scenarios

  /** HTTP 500 twice, then 200: the third attempt succeeds after 1 s + 2 s. */
  lemma TwoServerErrorsThenSuccess(decode: string -> Option<Envelope<int>>, envelope: Envelope<int>)
    requires decode("{}") == Some(envelope)
    ensures var proceed := (k: nat) => if k < 2 then Answered(HttpResponse(500, None))
                                       else Answered(HttpResponse(200, Some("{}")));
            var t := Retry(proceed, (k: nat) => false);
            && t == RetryTrace(3, [0, 1], [1000, 2000], Returned(HttpResponse(200, Some("{}"))))
            && TotalWait(t.waits) == 3000
            && ExecuteRequest(t.outcome, decode) == Ok(envelope)
  {
    var proceed := (k: nat) => if k < 2 then Answered(HttpResponse(500, None))
                               else Answered(HttpResponse(200, Some("{}")));
    var never := (k: nat) => false;
    assert BackoffMillis(0) == 1000 && BackoffMillis(1) == 2000;
    assert RetryFrom(proceed, never, 2, [0, 1], [1000, 2000])
           == RetryTrace(3, [0, 1], [1000, 2000], Returned(HttpResponse(200, Some("{}"))));
    assert RetryFrom(proceed, never, 1, [0], [1000]) == RetryFrom(proceed, never, 2, [0, 1], [1000, 2000]);
    assert TotalWait([1000, 2000]) == 3000;
  }

  /** HTTP 404 first: no retry, and the failure carries 404 and the body. */
  lemma NotFoundFailsAtOnce(decode: string -> Option<Envelope<int>>)
    ensures var t := Retry((k: nat) => Answered(HttpResponse(404, Some("missing"))), (k: nat) => false);
            && t.attempts == 1
            && ExecuteRequest(t.outcome, decode) == Err(RequestFailed(404, "missing"))
  {
  }

  /** The path and query the persons tests expect on the wire. */
  lemma PersonUrlShape(base: string)
    ensures BuildUrl(base, "/persons/12", "token") == base + "/persons/12?api_token=token"
    ensures BuildUrl(base, "/deals?limit=5", "token") == base + "/deals?limit=5&api_token=token"
  {
  }
}
