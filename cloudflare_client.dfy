/**
 * The decision logic of the Cloudflare API client: credential checking at
 * construction, the authentication headers, the retry and backoff loop for
 * HTTP 429 "Too Many Requests" (section 4 of RFC 6585) that honours a
 * Retry-After header (section 10.2.3 of RFC 9110), fail-fast handling of the
 * other error statuses, error-message composition, the exact zone lookup and
 * the interpretation of a delete response.
 *
 * The HTTP transport is a parameter: a function from the attempt number to
 * what the call to the transport did on that attempt. Sleeps are returned as
 * the list of their durations in seconds.
 */
module CloudflareClient {
  import opened Wrappers
  import opened PyText

  const DefaultBaseUrl: string := "https://api.cloudflare.com/client/v4"
  const DefaultTimeout: int := 30
  const DefaultMaxRetries: int := 5
  /** The largest backoff, in seconds. */
  const BackoffCap: nat := 30
  const JsonContentType: string := "application/json"
  const MissingCredentialsMessage: string :=
    "Cloudflare credentials missing. Provide CLOUDFLARE_API_TOKEN or CLOUDFLARE_EMAIL + CLOUDFLARE_API_KEY."

  function Min(a: nat, b: nat): nat {
    if a <= b then a else b
  }

  /** Python truthiness of an Optional[str]: present and not empty. */
  predicate Truthy(s: Option<string>) {
    s.Some? && s.value != ""
  }

  /** Python's `s or ""`. */
  function OrEmpty(s: Option<string>): string {
    if s.Some? then s.value else ""
  }

  /** A token, or both an email and an API key. */
  predicate HasCredentials(apiToken: Option<string>, email: Option<string>, apiKey: Option<string>) {
    Truthy(apiToken) || (Truthy(email) && Truthy(apiKey))
  }

  /** The client's configuration; nothing in it changes after construction. */
  datatype Client = Client(
    apiToken: Option<string>,
    email: Option<string>,
    apiKey: Option<string>,
    baseUrl: string,
    timeout: int,
    maxRetries: int)

  /** What a successfully constructed client satisfies. */
  predicate Valid(c: Client) {
    HasCredentials(c.apiToken, c.email, c.apiKey)
    && (c.baseUrl == [] || c.baseUrl[|c.baseUrl| - 1] != '/')
  }

  /**
   * The constructor: trailing slashes are cut from the base URL, and without
   * a token or an email and key pair it raises (a Failure here).
   */
  function NewClient(apiToken: Option<string>, email: Option<string>, apiKey: Option<string>,
                     baseUrl: string, timeout: int, maxRetries: int): (r: Result<Client, string>)
    ensures r.Success? <==> HasCredentials(apiToken, email, apiKey)
    ensures r.Failure? ==> r.error == MissingCredentialsMessage
    ensures r.Success? ==>
      Valid(r.value)
      && r.value.apiToken == apiToken && r.value.email == email && r.value.apiKey == apiKey
      && r.value.timeout == timeout && r.value.maxRetries == maxRetries
      && |r.value.baseUrl| <= |baseUrl| && baseUrl[..|r.value.baseUrl|] == r.value.baseUrl
      && forall i :: |r.value.baseUrl| <= i < |baseUrl| ==> baseUrl[i] == '/'
  {
    var c := Client(apiToken, email, apiKey, RStripChar(baseUrl, '/'), timeout, maxRetries);
    if !HasCredentials(apiToken, email, apiKey) then Failure(MissingCredentialsMessage) else Success(c)
  }

  /** The request URL: the trimmed base followed by the path. */
  function Url(c: Client, path: string): string {
    c.baseUrl + path
  }

  /** A base URL given with or without any number of trailing slashes yields the same request URLs. */
  lemma TrailingSlashesIrrelevant(apiToken: Option<string>, email: Option<string>, apiKey: Option<string>,
                                  baseUrl: string, slashes: string, timeout: int, maxRetries: int, path: string)
    requires HasCredentials(apiToken, email, apiKey)
    requires forall k :: 0 <= k < |slashes| ==> slashes[k] == '/'
    ensures var a := NewClient(apiToken, email, apiKey, baseUrl, timeout, maxRetries);
            var b := NewClient(apiToken, email, apiKey, baseUrl + slashes, timeout, maxRetries);
            Url(a.value, path) == Url(b.value, path) == RStripChar(baseUrl, '/') + path
  {
    RStripCharPadded(baseUrl, slashes, '/');
  }

  /** The two ways a client authenticates (section 2.1 of RFC 6750 for the token). */
  datatype Credentials = BearerToken(token: string) | KeyPair(email: string, apiKey: string)

  /** The credentials a valid client uses: its token when it has one, else its key pair. */
  function CredentialsOf(c: Client): Credentials
    requires Valid(c)
  {
    if Truthy(c.apiToken) then BearerToken(c.apiToken.value) else KeyPair(c.email.value, c.apiKey.value)
  }

  /** The request headers. */
  function Headers(c: Client): (h: map<string, string>)
    ensures "Content-Type" in h && h["Content-Type"] == JsonContentType
    ensures Truthy(c.apiToken) ==> h.Keys == {"Authorization", "Content-Type"}
    ensures !Truthy(c.apiToken) ==> h.Keys == {"X-Auth-Email", "X-Auth-Key", "Content-Type"}
  {
    if Truthy(c.apiToken) then
      map["Authorization" := "Bearer " + c.apiToken.value, "Content-Type" := JsonContentType]
    else
      map["X-Auth-Email" := OrEmpty(c.email), "X-Auth-Key" := OrEmpty(c.apiKey),
          "Content-Type" := JsonContentType]
  }

  /** The credentials that a server reads from a set of headers. */
  function CredentialsInHeaders(h: map<string, string>): Option<Credentials> {
    if "Authorization" in h then
      var v := h["Authorization"];
      if |v| >= 7 && v[..7] == "Bearer " && "X-Auth-Email" !in h && "X-Auth-Key" !in h
      then Some(BearerToken(v[7..])) else None
    else if "X-Auth-Email" in h && "X-Auth-Key" in h then Some(KeyPair(h["X-Auth-Email"], h["X-Auth-Key"]))
    else None
  }

  /**
   * A valid client's headers carry exactly one authentication mode, and it
   * is the client's own credentials: the token as a bearer credential when
   * there is one, otherwise the email and the key.
   */
  lemma HeadersCarryCredentials(c: Client)
    requires Valid(c)
    ensures CredentialsInHeaders(Headers(c)) == Some(CredentialsOf(c))
  {
    if Truthy(c.apiToken) {
      var v := "Bearer " + c.apiToken.value;
      assert v[..7] == "Bearer " && v[7..] == c.apiToken.value;
    }
  }

  // ---------------------------------------------------------------- responses

  /** One entry of the "errors" list of a response body. */
  datatype ErrorEntry = ErrorEntry(code: Option<int>, message: Option<string>)

  /** One entry of the "result" list of a zone listing. */
  datatype Zone = Zone(id: Option<string>, name: Option<string>)

  /**
   * A parsed JSON body. An object keeps the truthiness of its "success"
   * field, its "errors" list and its "result" list (an absent list is empty);
   * `repr` is the text Python's str() gives for the value.
   */
  datatype Data =
    | Object(success: bool, errors: seq<ErrorEntry>, result: seq<Zone>, repr: string)
    | NonObject(repr: string)

  /**
   * One HTTP response: its status, its Retry-After header as a number of
   * seconds when present, its body parsed as JSON (or the reason parsing
   * fails) and its raw text.
   */
  datatype Response = Response(status: int, retryAfter: Option<nat>, json: Result<Data, string>, text: string)

  /** What one call to the transport does: it answers, or it raises (a timeout, a refused connection). */
  datatype Exchange = Reply(response: Response) | Raised(reason: string)

  /** The request handed to the transport on every attempt. */
  datatype HttpRequest = HttpRequest(
    verb: string,
    url: string,
    headers: map<string, string>,
    params: seq<(string, string)>,
    json: Option<string>)

  /** The exceptions `_request` lets escape: CloudflareAPIError, or any other one. */
  datatype Fault = ApiError(message: string) | Unexpected(message: string)

  /** requests' `Response.ok`: false exactly for the client and server error statuses. */
  predicate IsOk(status: int) {
    !(400 <= status < 600)
  }

  predicate IsRateLimited(e: Exchange) {
    e.Reply? && e.response.status == 429
  }

  function RateLimitMessage(verb: string, path: string): string {
    "Rate limited and max retries exceeded for " + verb + " " + path
  }

  function HttpErrorMessage(status: int, verb: string, path: string, detail: string): string {
    "HTTP " + IntToString(status) + " for " + verb + " " + path + ": " + detail
  }

  /** The body used when an error response is not JSON: one error entry holding the raw text. */
  function SynthesizedBody(text: string): Data {
    Object(false, [ErrorEntry(None, Some(text))], [], "{'errors': [{'message': '" + text + "'}]}")
  }

  /** The body an error response is described by. */
  function ErrorBody(resp: Response): Data {
    if resp.json.Success? then resp.json.value else SynthesizedBody(resp.text)
  }

  // ---------------------------------------------------------- error messages

  /** Python's f"{msg}" for an optional message. */
  function MessageText(m: Option<string>): string {
    if m.Some? then m.value else "None"
  }

  /** One error entry: "<code>: <message>", or the message alone when there is no code. */
  function RenderEntry(e: ErrorEntry): string {
    if e.code.Some? then IntToString(e.code.value) + ": " + MessageText(e.message) else MessageText(e.message)
  }

  function RenderEntries(errors: seq<ErrorEntry>): (parts: seq<string>)
    ensures |parts| == |errors|
    ensures forall i :: 0 <= i < |errors| ==> parts[i] == RenderEntry(errors[i])
  {
    seq(|errors|, i requires 0 <= i < |errors| => RenderEntry(errors[i]))
  }

  /**
   * The message `_format_error_message` composes: the rendered error
   * entries joined by "; " when the body is an object with a non-empty
   * "errors" list, else str() of the body.
   */
  function ErrorText(data: Data): string {
    if data.Object? && data.errors != [] then Join(RenderEntries(data.errors), "; ") else data.repr
  }

  /** `_format_error_message`: the loop that renders each entry; the status plays no part. */
  method FormatErrorMessage(data: Data, status: int) returns (msg: string)
    ensures msg == ErrorText(data)
  {
    if data.Object? && data.errors != [] {
      var parts: seq<string> := [];
      for i := 0 to |data.errors|
        invariant parts == RenderEntries(data.errors[..i])
      {
        assert data.errors[..i + 1] == data.errors[..i] + [data.errors[i]];
        parts := parts + [RenderEntry(data.errors[i])];
      }
      assert data.errors[..|data.errors|] == data.errors;
      msg := Join(parts, "; ");
    } else {
      msg := data.repr;
    }
  }

  /** The message of one entry is exactly that entry's rendering. */
  lemma SingleEntryMessage(e: ErrorEntry, success: bool, result: seq<Zone>, repr: string)
    ensures ErrorText(Object(success, [e], result, repr)) == RenderEntry(e)
  {
  }

  /**
   * With several entries the message starts with the first entry and "; ",
   * and the rest of it is the message of the remaining entries.
   */
  lemma {:induction false} MessageOfSeveralEntries(errors: seq<ErrorEntry>, success: bool, result: seq<Zone>, repr: string)
    requires |errors| >= 2
    ensures ErrorText(Object(success, errors, result, repr))
            == RenderEntry(errors[0]) + "; " + ErrorText(Object(success, errors[1..], result, repr))
  {
    assert RenderEntries(errors)[1..] == RenderEntries(errors[1..]);
  }

  /** The message of an error response that is not JSON is its raw text. */
  lemma SynthesizedBodyMessage(text: string)
    ensures ErrorText(SynthesizedBody(text)) == text
  {
  }

  /** A body of {"success": false, "errors": [{"code": 1003, "message": "locked"}]} reads "1003: locked". */
  lemma LockedZoneMessage(repr: string)
    ensures ErrorText(Object(false, [ErrorEntry(Some(1003), Some("locked"))], [], repr)) == "1003: locked"
  {
    assert NatToString(1003) == "1003" by {
      assert NatToString(1) == "1";
      assert NatToString(10) == "10";
      assert NatToString(100) == "100";
    }
  }

  // ---------------------------------------------------------- retry and backoff

  /** The backoff in force before attempt `retry`: 1, then doubled after each 429, never above the cap. */
  function Backoff(retry: nat): nat {
    if retry == 0 then 1 else Min(2 * Backoff(retry - 1), BackoffCap)
  }

  function Pow2(k: nat): nat {
    if k == 0 then 1 else 2 * Pow2(k - 1)
  }

  /** The backoff is 2 to the power of the number of retries so far, capped at 30 seconds. */
  lemma {:induction false} BackoffClosedForm(retry: nat)
    ensures Backoff(retry) == Min(Pow2(retry), BackoffCap)
    ensures 1 <= Backoff(retry) <= BackoffCap
  {
    if retry > 0 {
      BackoffClosedForm(retry - 1);
      PowPositive(retry - 1);
    }
  }

  lemma {:induction false} PowPositive(k: nat)
    ensures Pow2(k) >= 1
  {
    if k > 0 {
      PowPositive(k - 1);
    }
  }

  /** The wait after a 429: the Retry-After header when present, else the current backoff. */
  function WaitFor(resp: Response, backoff: nat): nat {
    if resp.retryAfter.Some? then resp.retryAfter.value else backoff
  }

  /** How an attempt that is not rate limited ends the request. */
  function Settle(e: Exchange, verb: string, path: string): Result<Data, Fault>
    requires !IsRateLimited(e)
  {
    match e
    case Raised(reason) => Failure(Unexpected(reason))
    case Reply(resp) =>
      if !IsOk(resp.status) then
        Failure(ApiError(HttpErrorMessage(resp.status, verb, path, ErrorText(ErrorBody(resp)))))
      else match resp.json
        case Success(d) => Success(d)
        case Failure(reason) => Failure(Unexpected(reason))
  }

  function RetriesLeft(c: Client, retry: nat): nat {
    if c.maxRetries > retry then c.maxRetries - retry else 0
  }

  /**
   * The request from attempt `retry` on, with `backoff` in force: its result
   * and the sleeps it makes.
   */
  function Attempts(c: Client, verb: string, path: string, transport: nat -> Exchange,
                    retry: nat, backoff: nat): (Result<Data, Fault>, seq<nat>)
    decreases RetriesLeft(c, retry)
  {
    var e := transport(retry);
    if !IsRateLimited(e) then (Settle(e, verb, path), [])
    else if retry >= c.maxRetries then (Failure(ApiError(RateLimitMessage(verb, path))), [])
    else
      var rest := Attempts(c, verb, path, transport, retry + 1, Min(2 * backoff, BackoffCap));
      (rest.0, [WaitFor(e.response, backoff)] + rest.1)
  }

  /** n copies of the same request. */
  function Copies(x: HttpRequest, n: nat): (r: seq<HttpRequest>)
    ensures |r| == n && forall k :: 0 <= k < n ==> r[k] == x
  {
    if n == 0 then [] else Copies(x, n - 1) + [x]
  }

  function BuildRequest(c: Client, verb: string, path: string, params: seq<(string, string)>,
                        json: Option<string>): HttpRequest {
    HttpRequest(verb, Url(c, path), Headers(c), params, json)
  }

  /**
   * `_request`: a loop that sends the same request on every attempt, sleeps
   * and retries on 429 while retries are left, and otherwise returns the
   * parsed body or raises.
   */
  method Request(c: Client, verb: string, path: string, params: seq<(string, string)>,
                 json: Option<string>, transport: nat -> Exchange)
    returns (r: Result<Data, Fault>, sleeps: seq<nat>, sent: seq<HttpRequest>)
    ensures (r, sleeps) == Attempts(c, verb, path, transport, 0, 1)
    ensures sent == Copies(BuildRequest(c, verb, path, params, json), |sleeps| + 1)
  {
    var request := BuildRequest(c, verb, path, params, json);
    var retry: nat := 0;
    var backoff: nat := 1;
    sleeps, sent := [], [];
    ghost var whole := Attempts(c, verb, path, transport, 0, 1);
    assert [] + whole.1 == whole.1;
    while true
      invariant |sleeps| == retry && sent == Copies(request, retry)
      invariant whole.0 == Attempts(c, verb, path, transport, retry, backoff).0
      invariant whole.1 == sleeps + Attempts(c, verb, path, transport, retry, backoff).1
      decreases RetriesLeft(c, retry)
    {
      sent := sent + [request];
      var e := transport(retry);
      AttemptsDone(c, verb, path, transport, retry, backoff);
      if !(e.Reply? && e.response.status == 429) {
        r := Finish(e, verb, path);
        Unit(sleeps);
        return;
      }
      if retry >= c.maxRetries {
        r := Failure(ApiError(RateLimitMessage(verb, path)));
        Unit(sleeps);
        return;
      }
      var wait: nat := if e.response.retryAfter.Some? then e.response.retryAfter.value else backoff;
      AttemptsStep(c, verb, path, transport, retry, backoff);
      Assoc(sleeps, [wait], Attempts(c, verb, path, transport, retry + 1, Min(2 * backoff, BackoffCap)).1);
      sleeps := sleeps + [wait];
      retry := retry + 1;
      backoff := Min(2 * backoff, BackoffCap);
    }
  }

  lemma Unit(s: seq<nat>)
    ensures s + [] == s
  {
  }

  lemma Assoc(a: seq<nat>, b: seq<nat>, c: seq<nat>)
    ensures a + (b + c) == (a + b) + c
  {
  }

  /** One rate-limited attempt with retries left: sleep, double the backoff, try again. */
  lemma AttemptsStep(c: Client, verb: string, path: string, transport: nat -> Exchange, retry: nat, backoff: nat)
    requires IsRateLimited(transport(retry)) && retry < c.maxRetries
    ensures var rest := Attempts(c, verb, path, transport, retry + 1, Min(2 * backoff, BackoffCap));
            Attempts(c, verb, path, transport, retry, backoff)
            == (rest.0, [WaitFor(transport(retry).response, backoff)] + rest.1)
  {
  }

  /** An attempt that is not retried ends the request without another sleep. */
  lemma AttemptsDone(c: Client, verb: string, path: string, transport: nat -> Exchange, retry: nat, backoff: nat)
    ensures !IsRateLimited(transport(retry))
            ==> Attempts(c, verb, path, transport, retry, backoff) == (Settle(transport(retry), verb, path), [])
    ensures IsRateLimited(transport(retry)) && retry >= c.maxRetries
            ==> Attempts(c, verb, path, transport, retry, backoff)
                == (Failure(ApiError(RateLimitMessage(verb, path))), [])
  {
  }

  /**
   * The end of `_request` once an attempt is not rate limited: an escaping
   * exception, an HTTP error raised with the formatted body, or the parsed body.
   */
  method Finish(e: Exchange, verb: string, path: string) returns (r: Result<Data, Fault>)
    requires !IsRateLimited(e)
    ensures r == Settle(e, verb, path)
  {
    if e.Raised? {
      return Failure(Unexpected(e.reason));
    }
    var resp := e.response;
    if !IsOk(resp.status) {
      var data := if resp.json.Success? then resp.json.value else SynthesizedBody(resp.text);
      var message := FormatErrorMessage(data, resp.status);
      return Failure(ApiError("HTTP " + IntToString(resp.status) + " for " + verb + " " + path + ": " + message));
    }
    match resp.json {
      case Success(d) => r := Success(d);
      case Failure(reason) => r := Failure(Unexpected(reason));
    }
  }

  /**
   * The sleeps of `Attempts` from any attempt on, with the backoff that
   * attempt has; attempts are numbered absolutely, from `retry`.
   */
  lemma {:induction false} AttemptsSleeps(c: Client, verb: string, path: string,
                                          transport: nat -> Exchange, retry: nat)
    ensures var s := Attempts(c, verb, path, transport, retry, Backoff(retry)).1;
      |s| <= RetriesLeft(c, retry)
      && forall k :: retry <= k < retry + |s| ==>
           IsRateLimited(transport(k)) && s[k - retry] == WaitFor(transport(k).response, Backoff(k))
    decreases RetriesLeft(c, retry)
  {
    var e := transport(retry);
    if IsRateLimited(e) && retry < c.maxRetries {
      assert Min(2 * Backoff(retry), BackoffCap) == Backoff(retry + 1);
      AttemptsSleeps(c, verb, path, transport, retry + 1);
      var rest := Attempts(c, verb, path, transport, retry + 1, Backoff(retry + 1)).1;
      var s := [WaitFor(e.response, Backoff(retry))] + rest;
      assert Attempts(c, verb, path, transport, retry, Backoff(retry)).1 == s;
      forall k | retry <= k < retry + |s|
        ensures IsRateLimited(transport(k)) && s[k - retry] == WaitFor(transport(k).response, Backoff(k))
      {
        if k > retry {
          assert s[k - retry] == rest[k - (retry + 1)];
        }
      }
    }
  }

  /**
   * How `Attempts` ends, from any attempt on: the attempt after the last
   * sleep decides the result.
   */
  lemma {:induction false} AttemptsEnd(c: Client, verb: string, path: string,
                                       transport: nat -> Exchange, retry: nat)
    ensures var (r, s) := Attempts(c, verb, path, transport, retry, Backoff(retry));
      (IsRateLimited(transport(retry + |s|)) ==>
         |s| == RetriesLeft(c, retry) && r == Failure(ApiError(RateLimitMessage(verb, path))))
      && (!IsRateLimited(transport(retry + |s|)) ==> r == Settle(transport(retry + |s|), verb, path))
    decreases RetriesLeft(c, retry)
  {
    var e := transport(retry);
    if IsRateLimited(e) && retry < c.maxRetries {
      assert Min(2 * Backoff(retry), BackoffCap) == Backoff(retry + 1);
      AttemptsEnd(c, verb, path, transport, retry + 1);
      var rest := Attempts(c, verb, path, transport, retry + 1, Backoff(retry + 1));
      var s := [WaitFor(e.response, Backoff(retry))] + rest.1;
      assert Attempts(c, verb, path, transport, retry, Backoff(retry)) == (rest.0, s);
      assert retry + |s| == retry + 1 + |rest.1|;
    }
  }

  /**
   * The sleeps a request makes: the k-th follows a 429 on attempt k and
   * lasts its Retry-After value or else the k-th backoff; there are at most
   * max_retries of them.
   */
  lemma RequestSleeps(c: Client, verb: string, path: string, transport: nat -> Exchange)
    ensures var s := Attempts(c, verb, path, transport, 0, 1).1;
      |s| <= RetriesLeft(c, 0)
      && forall k :: 0 <= k < |s| ==>
           IsRateLimited(transport(k)) && s[k] == WaitFor(transport(k).response, Backoff(k))
  {
    assert Backoff(0) == 1;
    AttemptsSleeps(c, verb, path, transport, 0);
    var s := Attempts(c, verb, path, transport, 0, 1).1;
    forall k | 0 <= k < |s|
      ensures IsRateLimited(transport(k)) && s[k] == WaitFor(transport(k).response, Backoff(k))
    {
      assert 0 <= k < 0 + |s|;
      assert s[k - 0] == s[k];
    }
  }

  /**
   * How a request ends: the attempt after the last sleep decides. A 429
   * there means max_retries sleeps were made and the request raises as rate
   * limited; anything else settles the request without a retry.
   */
  lemma RequestEnd(c: Client, verb: string, path: string, transport: nat -> Exchange)
    ensures var a := Attempts(c, verb, path, transport, 0, 1);
      (IsRateLimited(transport(|a.1|)) ==>
         |a.1| == RetriesLeft(c, 0) && a.0 == Failure(ApiError(RateLimitMessage(verb, path))))
      && (!IsRateLimited(transport(|a.1|)) ==> a.0 == Settle(transport(|a.1|), verb, path))
  {
    assert Backoff(0) == 1;
    AttemptsEnd(c, verb, path, transport, 0);
    assert 0 + |Attempts(c, verb, path, transport, 0, 1).1| == |Attempts(c, verb, path, transport, 0, 1).1|;
  }

  /** No sleep lasts longer than 30 seconds unless the server asked for it in Retry-After. */
  lemma SleepsWithoutRetryAfterAreCapped(c: Client, verb: string, path: string,
                                         transport: nat -> Exchange, j: nat)
    requires j < |Attempts(c, verb, path, transport, 0, 1).1|
    ensures transport(j).Reply? && transport(j).response.status == 429
    ensures transport(j).response.retryAfter.None? ==>
              1 <= Attempts(c, verb, path, transport, 0, 1).1[j] <= BackoffCap
  {
    RequestSleeps(c, verb, path, transport);
    BackoffClosedForm(j);
  }

  /** Responses 429, 429, 200 without Retry-After: sleeps of 1 and 2 seconds, then the 200 body. */
  lemma TwoRateLimitsThenSuccess(c: Client, verb: string, path: string,
                                 transport: nat -> Exchange, body: Data)
    requires c.maxRetries >= 2
    requires IsRateLimited(transport(0)) && transport(0).response.retryAfter.None?
    requires IsRateLimited(transport(1)) && transport(1).response.retryAfter.None?
    requires transport(2).Reply? && transport(2).response.status == 200
    requires transport(2).response.json == Success(body)
    ensures Attempts(c, verb, path, transport, 0, 1) == (Success(body), [1, 2])
  {
    assert Attempts(c, verb, path, transport, 2, 4) == (Success(body), []);
    assert [2] + [] == [2];
    assert Min(2 * 2, BackoffCap) == 4;
    assert Attempts(c, verb, path, transport, 1, 2) == (Success(body), [2]);
    assert Min(2 * 1, BackoffCap) == 2;
    assert [1] + [2] == [1, 2];
  }

  /** With the default of 5 retries, six 429s in a row raise after sleeps of 1, 2, 4, 8 and 16 seconds. */
  lemma SixRateLimitsRaise(c: Client, verb: string, path: string, transport: nat -> Exchange)
    requires c.maxRetries == DefaultMaxRetries
    requires forall k :: 0 <= k <= 5 ==> IsRateLimited(transport(k)) && transport(k).response.retryAfter.None?
    ensures Attempts(c, verb, path, transport, 0, 1)
            == (Failure(ApiError(RateLimitMessage(verb, path))), [1, 2, 4, 8, 16])
  {
    RequestSleeps(c, verb, path, transport);
    RequestEnd(c, verb, path, transport);
    var s := Attempts(c, verb, path, transport, 0, 1).1;
    assert |s| == 5;
    assert Backoff(1) == 2 && Backoff(2) == 4 && Backoff(3) == 8 && Backoff(4) == 16;
    assert s == [s[0], s[1], s[2], s[3], s[4]];
  }

  /** A non-429 error status is never retried: no sleep, and the composed HTTP error. */
  lemma ErrorStatusFailsFast(c: Client, verb: string, path: string, transport: nat -> Exchange)
    requires transport(0).Reply? && transport(0).response.status != 429
    requires !IsOk(transport(0).response.status)
    ensures var resp := transport(0).response;
            Attempts(c, verb, path, transport, 0, 1)
            == (Failure(ApiError(HttpErrorMessage(resp.status, verb, path, ErrorText(ErrorBody(resp))))), [])
  {
  }

  // ---------------------------------------------------------- zone lookup

  /** `z.get("name", "")`. */
  function NameOf(z: Zone): string {
    if z.name.Some? then z.name.value else ""
  }

  /** The key a domain is looked up by: `domain.strip().lower()`. */
  function LookupKey(domain: string): string {
    Lower(Strip(domain))
  }

  /** The query of the zone listing: the lookup key, every match mode, and pages of 50. */
  function ZoneQuery(domain: string): seq<(string, string)> {
    [("name", LookupKey(domain)), ("match", "all"), ("per_page", "50")]
  }

  /** The lookup's test: the lower-cased zone name equals the key. */
  predicate NameIs(z: Zone, key: string) {
    Lower(NameOf(z)) == key
  }

  /** The zones of a listing body: its "result" list, or none when the body is not an object. */
  function ResultsOf(data: Data): seq<Zone> {
    if data.Object? then data.result else []
  }

  /** The index of the first zone with the key, or |zones| when there is none. */
  function FirstMatchIndex(zones: seq<Zone>, key: string): (i: nat)
    ensures i <= |zones|
    ensures forall j :: 0 <= j < i ==> !NameIs(zones[j], key)
    ensures i < |zones| ==> NameIs(zones[i], key)
  {
    if zones == [] || NameIs(zones[0], key) then 0
    else
      var k := FirstMatchIndex(zones[1..], key);
      assert forall j :: 1 <= j < 1 + k ==> zones[j] == zones[1..][j - 1];
      1 + k
  }

  /** The zone the lookup returns for a domain: the first whose name matches, or None. */
  function FirstMatch(zones: seq<Zone>, domain: string): (r: Option<Zone>)
    ensures r.None? <==> forall j :: 0 <= j < |zones| ==> !NameIs(zones[j], LookupKey(domain))
    ensures r.Some? ==> var i := FirstMatchIndex(zones, LookupKey(domain));
                        i < |zones| && r.value == zones[i] && NameIs(r.value, LookupKey(domain))
  {
    var i := FirstMatchIndex(zones, LookupKey(domain));
    if i < |zones| then Some(zones[i]) else None
  }

  /**
   * A returned zone's name is the stripped domain up to ASCII case: the same
   * length, the same letters. So "sub.a.com" is never returned for "a.com".
   */
  lemma MatchIsExact(zones: seq<Zone>, domain: string)
    requires FirstMatch(zones, domain).Some?
    ensures var n := NameOf(FirstMatch(zones, domain).value);
            var d := Strip(domain);
            |n| == |d| && forall k :: 0 <= k < |n| ==> LowerChar(n[k]) == LowerChar(d[k])
  {
    var n := NameOf(FirstMatch(zones, domain).value);
    var d := Strip(domain);
    assert Lower(n) == Lower(d);
    forall k | 0 <= k < |n|
      ensures LowerChar(n[k]) == LowerChar(d[k])
    {
      assert Lower(n)[k] == Lower(d)[k];
    }
  }

  /** White space around the domain does not change the key it is looked up by. */
  lemma LookupIgnoresPadding(before: string, domain: string, after: string)
    requires AllSpace(before) && AllSpace(after)
    ensures LookupKey(before + domain + after) == LookupKey(domain)
  {
    StripIgnoresPadding(before, domain, after);
  }

  /** A zone whose name is longer than the stripped domain (a subdomain of it, say) is never returned. */
  lemma SubdomainNotReturned(zones: seq<Zone>, domain: string, z: Zone)
    requires |NameOf(z)| > |Strip(domain)|
    ensures FirstMatch(zones, domain) != Some(z)
  {
    if FirstMatch(zones, domain) == Some(z) {
      MatchIsExact(zones, domain);
    }
  }

  /** A listing that puts a subdomain first still yields the exact zone after it. */
  lemma ExactZoneAfterSubdomain(sub: Zone, exact: Zone, domain: string)
    requires NameIs(exact, LookupKey(domain)) && |NameOf(sub)| > |Strip(domain)|
    ensures FirstMatch([sub, exact], domain) == Some(exact)
  {
    var key := LookupKey(domain);
    assert !NameIs(sub, key) by {
      assert |Lower(NameOf(sub))| != |key|;
    }
    assert [sub, exact][1..] == [exact];
    assert FirstMatchIndex([exact], key) == 0;
  }

  /** The search loop of `get_zone_by_name`: the first zone whose lower-cased name is the key, with early return. */
  method SearchZones(zones: seq<Zone>, key: string) returns (r: Option<Zone>)
    ensures r.None? <==> forall j :: 0 <= j < |zones| ==> !NameIs(zones[j], key)
    ensures r.Some? ==> r.value == zones[FirstMatchIndex(zones, key)]
  {
    for i := 0 to |zones|
      invariant forall j :: 0 <= j < i ==> !NameIs(zones[j], key)
    {
      if Lower(NameOf(zones[i])) == key {
        return Some(zones[i]);
      }
    }
    return None;
  }

  /**
   * `get_zone_by_name`: one listing request, then the search of its
   * results; a failing request propagates.
   */
  method GetZoneByName(c: Client, domain: string, transport: nat -> Exchange)
    returns (r: Result<Option<Zone>, Fault>, sent: seq<HttpRequest>)
    ensures var res := Attempts(c, "GET", "/zones", transport, 0, 1).0;
            r == if res.Failure? then Failure(res.error) else Success(FirstMatch(ResultsOf(res.value), domain))
    ensures sent == Copies(BuildRequest(c, "GET", "/zones", ZoneQuery(domain), None),
                           |Attempts(c, "GET", "/zones", transport, 0, 1).1| + 1)
  {
    var key := Lower(Strip(domain));
    var params := [("name", key), ("match", "all"), ("per_page", "50")];
    var res, _, attempts := Request(c, "GET", "/zones", params, None, transport);
    sent := attempts;
    if res.Failure? {
      return Failure(res.error), sent;
    }
    var zone := SearchZones(ResultsOf(res.value), key);
    return Success(zone), sent;
  }

  // ---------------------------------------------------------- zone deletion

  /** How `delete_zone` reads a 2xx body: success is the body's own flag, otherwise the composed reason. */
  function DeleteVerdict(data: Data): (v: (bool, string))
    ensures v.0 <==> data.Object? && data.success
    ensures v.0 ==> v.1 == "Deleted"
    ensures !v.0 ==> v.1 == ErrorText(data)
  {
    if data.Object? && data.success then (true, "Deleted") else (false, ErrorText(data))
  }

  /**
   * `delete_zone`: one DELETE request; a body whose success flag is false
   * is a returned failure, not a raised one.
   */
  method DeleteZone(c: Client, zoneId: string, transport: nat -> Exchange)
    returns (r: Result<(bool, string), Fault>, sent: seq<HttpRequest>)
    ensures var res := Attempts(c, "DELETE", "/zones/" + zoneId, transport, 0, 1).0;
            r == if res.Failure? then Failure(res.error) else Success(DeleteVerdict(res.value))
    ensures sent == Copies(BuildRequest(c, "DELETE", "/zones/" + zoneId, [], None),
                           |Attempts(c, "DELETE", "/zones/" + zoneId, transport, 0, 1).1| + 1)
  {
    var res, _, attempts := Request(c, "DELETE", "/zones/" + zoneId, [], None, transport);
    sent := attempts;
    if res.Failure? {
      return Failure(res.error), sent;
    }
    var data := res.value;
    var success := data.Object? && data.success;
    if success {
      return Success((true, "Deleted")), sent;
    }
    var msg := FormatErrorMessage(data, 200);
    return Success((false, msg)), sent;
  }

  /** HTTP 200 with {"success": false, "errors": [{"code": 1003, "message": "locked"}]}: a returned failure "1003: locked". */
  lemma LockedZoneIsReturnedFailure(c: Client, zoneId: string, transport: nat -> Exchange, repr: string)
    requires transport(0) == Reply(Response(200, None,
               Success(Object(false, [ErrorEntry(Some(1003), Some("locked"))], [], repr)), ""))
    ensures var res := Attempts(c, "DELETE", "/zones/" + zoneId, transport, 0, 1).0;
            res.Success? && DeleteVerdict(res.value) == (false, "1003: locked")
  {
    LockedZoneMessage(repr);
  }
}
