/**
 * The retrying HTTP test client. The HTTP transport is injected as a function
 * from the index of a call to its outcome, sleeping is a counter of seconds,
 * and the logger only records which kind of event each log call was.
 */
module BaseApiClient {
  import opened Wrappers
  import opened Json

  /** Settings of the client's configuration. */
  const RequestTimeout: real := 30.0
  const MaxRetries: nat := 3
  const RetryDelay: nat := 1
  const DefaultMaxTime: real := 5.0
  const DefaultHeaders: map<string, string> := map[
    "Content-Type" := "application/json",
    "Accept" := "application/json",
    "User-Agent" := "Automation-Testing-Playground/1.0"
  ]

  /** A response body: decoded JSON, or text on which `response.json()` raises. */
  datatype Body = JsonBody(value: Json) | NotJson(text: string)

  datatype Response = Response(status: int, elapsed: real, body: Body)

  /** What one call of the session's `request` does: answer (with any status)
      or raise a `RequestException`. */
  datatype CallOutcome = Got(response: Response) | TransportError(reason: string)

  /** The `timeout` keyword argument: `None` (wait forever) or seconds. */
  datatype Timeout = NoTimeout | Seconds(seconds: real)

  /** One call the client makes of the session. */
  datatype Request = Request(
    verb: string,
    url: string,
    headers: map<string, string>,
    timeout: Timeout,
    json: Option<Json>)

  /** What `_make_request` does for its caller: return a response or re-raise. */
  datatype Sent = Responded(response: Response) | Raised(reason: string)

  /** A whole retry run: what the caller sees and how many calls it made. */
  datatype Exchange = Exchange(sent: Sent, attempts: nat)

  /** The kinds of log call the client makes. */
  datatype Event = StepEvent | SuccessEvent | WarningEvent | ErrorEvent | NoteEvent

  /** The outcome of a verification helper: its boolean and the log call it makes. */
  datatype Check = Check(passed: bool, event: Event)

  /** `base_url.rstrip('/')`: the base without its trailing slashes. */
  function StripTrailingSlashes(s: string): (r: string)
    ensures |r| <= |s| && r == s[..|r|]
    ensures forall i :: |r| <= i < |s| ==> s[i] == '/'
    ensures r == [] || r[|r| - 1] != '/'
  {
    if s != [] && s[|s| - 1] == '/' then StripTrailingSlashes(s[..|s| - 1]) else s
  }

  /** The client's headers: the defaults, overridden key by key by the caller's
      (`None` and `{}` both leave the defaults). */
  function MergeHeaders(caller: Option<map<string, string>>): (h: map<string, string>)
    ensures caller.None? ==> h == DefaultHeaders
    ensures caller.Some? ==> h.Keys == DefaultHeaders.Keys + caller.value.Keys
    ensures caller.Some? ==> forall k :: k in caller.value ==> h[k] == caller.value[k]
    ensures forall k :: k in DefaultHeaders && (caller.None? || k !in caller.value) ==> h[k] == DefaultHeaders[k]
  {
    match caller
    case None => DefaultHeaders
    case Some(m) => DefaultHeaders + m
  }

  /** The timeout an attempt uses: the caller's if one was passed (even `None`),
      otherwise the configured request timeout. */
  function EffectiveTimeout(given: Option<Timeout>): (t: Timeout)
    ensures given.Some? ==> t == given.value
    ensures given.None? ==> t == Seconds(RequestTimeout)
  {
    if given.Some? then given.value else Seconds(RequestTimeout)
  }

  /** `if data: kwargs['json'] = data` in post, put and patch: only a non-empty
      dict is sent as a JSON body; `None` and `{}` send none. */
  function JsonBodyFor(data: Option<map<string, Json>>): (body: Option<Json>)
    ensures body.Some? <==> data.Some? && |data.value| > 0
    ensures body.Some? ==> body.value == JObject(data.value)
  {
    if data.Some? && |data.value| > 0 then Some(JObject(data.value)) else None
  }

  /** The retry loop from attempt number `attempt` on, when the session's
      `start + k`-th call has outcome `net(start + k)`. */
  function RetryFrom(net: nat -> CallOutcome, start: nat, attempt: nat): (e: Exchange)
    requires attempt < MaxRetries
    ensures attempt < e.attempts <= MaxRetries
    decreases MaxRetries - attempt
  {
    match net(start + attempt)
    case Got(response) => Exchange(Responded(response), attempt + 1)
    case TransportError(reason) =>
      if attempt < MaxRetries - 1 then RetryFrom(net, start, attempt + 1)
      else Exchange(Raised(reason), attempt + 1)
  }

  /** The whole retry run of one request whose first call is the session's `start`-th. */
  function Retry(net: nat -> CallOutcome, start: nat): Exchange
  {
    RetryFrom(net, start, 0)
  }

  /** The calls numbered `from` up to but excluding `to` all raised. */
  predicate FailsThrough(net: nat -> CallOutcome, from: nat, to: nat)
  {
    forall k :: from <= k < to ==> net(k).TransportError?
  }

  lemma {:induction false} RetryFromFacts(net: nat -> CallOutcome, start: nat, attempt: nat)
    requires attempt < MaxRetries
    ensures var e := RetryFrom(net, start, attempt);
      && FailsThrough(net, start + attempt, start + e.attempts - 1)
      && (e.sent.Responded? ==> net(start + e.attempts - 1) == Got(e.sent.response))
      && (e.sent.Raised? ==>
            && e.attempts == MaxRetries
            && net(start + MaxRetries - 1) == TransportError(e.sent.reason))
    decreases MaxRetries - attempt
  {
    var e := RetryFrom(net, start, attempt);
    if net(start + attempt).TransportError? && attempt < MaxRetries - 1 {
      RetryFromFacts(net, start, attempt + 1);
    }
  }

  /** The retry run returns the response of the first call that produced one,
      after exactly that many calls, none of which came later. */
  lemma RetryReturnsFirstResponse(net: nat -> CallOutcome, start: nat)
    ensures var e := Retry(net, start);
      e.sent.Responded? ==>
        && 1 <= e.attempts <= MaxRetries
        && FailsThrough(net, start, start + e.attempts - 1)
        && net(start + e.attempts - 1) == Got(e.sent.response)
  {
    RetryFromFacts(net, start, 0);
  }

  /** The run raises exactly when all of its calls raise; it then made
      every one of them and re-raises the last error. */
  lemma RetryRaisesOnlyWhenAllFail(net: nat -> CallOutcome, start: nat)
    ensures var e := Retry(net, start);
      e.sent.Raised? <==> FailsThrough(net, start, start + MaxRetries)
    ensures var e := Retry(net, start);
      e.sent.Raised? ==>
        && e.attempts == MaxRetries
        && net(start + MaxRetries - 1) == TransportError(e.sent.reason)
  {
    RetryFromFacts(net, start, 0);
    var e := Retry(net, start);
    if e.sent.Responded? {
      assert !net(start + (e.attempts - 1)).TransportError?;
    }
  }

  /** `n` copies of `x`. */
  function Repeat<T>(x: T, n: nat): (r: seq<T>)
    ensures |r| == n && forall i :: 0 <= i < n ==> r[i] == x
  {
    seq(n, _ => x)
  }

  /** The log calls of a retry run after its step: a warning per failed call,
      then a success, or an error once the calls run out. */
  function RunEvents(e: Exchange): seq<Event>
    requires e.attempts >= 1
  {
    Repeat(WarningEvent, e.attempts - 1)
      + (if e.sent.Responded? then [SuccessEvent] else [WarningEvent, ErrorEvent])
  }

  /** The client: configuration fixed at construction, plus what it has done so
      far: the calls made, the seconds slept and the log calls made. */
  class Client {
    const baseUrl: string
    const headers: map<string, string>
    const network: nat -> CallOutcome
    var calls: seq<Request>
    var slept: nat
    var log: seq<Event>

    constructor (base: string, callerHeaders: Option<map<string, string>>, network: nat -> CallOutcome)
      ensures baseUrl == StripTrailingSlashes(base)
      ensures headers == MergeHeaders(callerHeaders)
      ensures this.network == network
      ensures calls == [] && slept == 0 && log == []
    {
      baseUrl := StripTrailingSlashes(base);
      headers := MergeHeaders(callerHeaders);
      this.network := network;
      calls := [];
      slept := 0;
      log := [];
    }

    /** The request every attempt of `_make_request` sends. */
    function RequestFor(verb: string, endpoint: string, timeout: Option<Timeout>, json: Option<Json>): Request
    {
      Request(verb, baseUrl + endpoint, headers, EffectiveTimeout(timeout), json)
    }

    /** The effect of one `_make_request(verb, endpoint, ...)` on the client:
        the retry run's calls, its sleeps between attempts, and what it gives back. */
    twostate predicate Exchanged(request: Request, sent: Sent)
      reads this
    {
      var e := Retry(network, |old(calls)|);
      && sent == e.sent
      && calls == old(calls) + Repeat(request, e.attempts)
      && slept == old(slept) + (e.attempts - 1) * RetryDelay
    }

    /** `_make_request`: at most `MaxRetries` calls of the same request, returning
        the first response and re-raising the last error when every call raised. */
    method MakeRequest(verb: string, endpoint: string, timeout: Option<Timeout>, json: Option<Json>)
      returns (sent: Sent)
      modifies this
      ensures Exchanged(RequestFor(verb, endpoint, timeout, json), sent)
      ensures log == old(log) + [StepEvent] + RunEvents(Retry(network, |old(calls)|))
    {
      var request := Request(verb, baseUrl + endpoint, headers, EffectiveTimeout(timeout), json);
      log := log + [StepEvent];
      ghost var start := |calls|;
      var attempt := 0;
      while attempt < MaxRetries
        invariant 0 <= attempt < MaxRetries
        invariant calls == old(calls) + Repeat(request, attempt)
        invariant slept == old(slept) + attempt * RetryDelay
        invariant log == old(log) + [StepEvent] + Repeat(WarningEvent, attempt)
        invariant Retry(network, start) == RetryFrom(network, start, attempt)
        decreases MaxRetries - attempt
      {
        var outcome := network(|calls|);
        calls := calls + [request];
        match outcome {
          case Got(response) =>
            log := log + [SuccessEvent];
            return Responded(response);
          case TransportError(reason) =>
            log := log + [WarningEvent];
            if attempt < MaxRetries - 1 {
              slept := slept + RetryDelay;
            } else {
              log := log + [ErrorEvent];
              return Raised(reason);
            }
        }
        attempt := attempt + 1;
      }
    }

    method Get(endpoint: string, timeout: Option<Timeout>) returns (sent: Sent)
      modifies this
      ensures Exchanged(RequestFor("GET", endpoint, timeout, None), sent)
      ensures log == old(log) + [StepEvent] + RunEvents(Retry(network, |old(calls)|))
    {
      sent := MakeRequest("GET", endpoint, timeout, None);
    }

    method Post(endpoint: string, data: Option<map<string, Json>>, timeout: Option<Timeout>) returns (sent: Sent)
      modifies this
      ensures Exchanged(RequestFor("POST", endpoint, timeout, JsonBodyFor(data)), sent)
      ensures log == old(log) + [StepEvent] + RunEvents(Retry(network, |old(calls)|))
    {
      sent := MakeRequest("POST", endpoint, timeout, JsonBodyFor(data));
    }

    method Put(endpoint: string, data: Option<map<string, Json>>, timeout: Option<Timeout>) returns (sent: Sent)
      modifies this
      ensures Exchanged(RequestFor("PUT", endpoint, timeout, JsonBodyFor(data)), sent)
      ensures log == old(log) + [StepEvent] + RunEvents(Retry(network, |old(calls)|))
    {
      sent := MakeRequest("PUT", endpoint, timeout, JsonBodyFor(data));
    }

    method Patch(endpoint: string, data: Option<map<string, Json>>, timeout: Option<Timeout>) returns (sent: Sent)
      modifies this
      ensures Exchanged(RequestFor("PATCH", endpoint, timeout, JsonBodyFor(data)), sent)
      ensures log == old(log) + [StepEvent] + RunEvents(Retry(network, |old(calls)|))
    {
      sent := MakeRequest("PATCH", endpoint, timeout, JsonBodyFor(data));
    }

    method Delete(endpoint: string, timeout: Option<Timeout>) returns (sent: Sent)
      modifies this
      ensures Exchanged(RequestFor("DELETE", endpoint, timeout, None), sent)
      ensures log == old(log) + [StepEvent] + RunEvents(Retry(network, |old(calls)|))
    {
      sent := MakeRequest("DELETE", endpoint, timeout, None);
    }
  }

  /** The set of statuses `verify_status_code` accepts: one code, or a list of them. */
  datatype Expected = Code(code: int) | Codes(codes: seq<int>)

  function ExpectedCodes(expected: Expected): seq<int>
  {
    match expected
    case Code(c) => [c]
    case Codes(cs) => cs
  }

  /** `verify_status_code`: passes iff the status is one of the expected codes,
      logging success or error accordingly. */
  function StatusCheck(response: Response, expected: Expected): (c: Check)
    ensures c.passed <==> exists i :: 0 <= i < |ExpectedCodes(expected)| && ExpectedCodes(expected)[i] == response.status
    ensures c.event == if c.passed then SuccessEvent else ErrorEvent
  {
    var passed := response.status in ExpectedCodes(expected);
    Check(passed, if passed then SuccessEvent else ErrorEvent)
  }

  /** A single expected code is a one-element list: the check passes iff the
      status equals it. */
  lemma StatusCheckSingle(response: Response, code: int)
    ensures StatusCheck(response, Code(code)).passed <==> response.status == code
    ensures StatusCheck(response, Code(code)) == StatusCheck(response, Codes([code]))
  {
    assert ExpectedCodes(Code(code))[0] == code;
  }

  /** `verify_response_time`: passes iff the elapsed time is within the limit;
      a slow response is logged as a warning, never as an error. */
  function ResponseTimeCheck(response: Response, maxTime: real := DefaultMaxTime): (c: Check)
    ensures c.passed <==> response.elapsed <= maxTime
    ensures c.event != ErrorEvent
    ensures c.passed ==> c.event == SuccessEvent
    ensures !c.passed ==> c.event == WarningEvent
  {
    if response.elapsed <= maxTime then Check(true, SuccessEvent) else Check(false, WarningEvent)
  }

  /** `verify_json_schema` with the schema given as the predicate it denotes:
      passes iff the body decodes and conforms; a body that does not decode
      and one that does not conform are both logged as errors. */
  function SchemaCheck(body: Body, conforms: Json -> bool): (c: Check)
    ensures c.passed <==> body.JsonBody? && conforms(body.value)
    ensures c.event == if c.passed then SuccessEvent else ErrorEvent
  {
    match body
    case NotJson(_) => Check(false, ErrorEvent)
    case JsonBody(v) => if conforms(v) then Check(true, SuccessEvent) else Check(false, ErrorEvent)
  }

  /** What `extract_value_by_jsonpath` returns (Python's None is `JNull`, a list
      of matches a `JArray`) and the log call it makes. */
  datatype Extraction = Extraction(value: Json, event: Event)

  /** `extract_value_by_jsonpath` with the JSONPath query given as the function
      from a document to its list of matches. */
  function ExtractByJsonPath(body: Body, find: Json -> seq<Json>): (x: Extraction)
    ensures body.NotJson? ==> x == Extraction(JNull, ErrorEvent)
    ensures body.JsonBody? && find(body.value) == [] ==> x == Extraction(JNull, WarningEvent)
    ensures body.JsonBody? && |find(body.value)| == 1 ==> x == Extraction(find(body.value)[0], NoteEvent)
    ensures body.JsonBody? && |find(body.value)| >= 2 ==> x == Extraction(JArray(find(body.value)), NoteEvent)
  {
    match body
    case NotJson(_) => Extraction(JNull, ErrorEvent)
    case JsonBody(v) =>
      var matches := find(v);
      if |matches| == 0 then Extraction(JNull, WarningEvent)
      else if |matches| == 1 then Extraction(matches[0], NoteEvent)
      else Extraction(JArray(matches), NoteEvent)
  }

  /** The value alone cannot tell "nothing matched" from "one match, and it was
      null", nor one list-valued match from several matches; the log call can. */
  lemma ExtractionValueIsAmbiguous(doc: Json)
    ensures var none := ExtractByJsonPath(JsonBody(doc), _ => []);
            var nullMatch := ExtractByJsonPath(JsonBody(doc), _ => [JNull]);
            none.value == nullMatch.value && none.event != nullMatch.event
    ensures var one := ExtractByJsonPath(JsonBody(doc), _ => [JArray([JInt(1), JInt(2)])]);
            var two := ExtractByJsonPath(JsonBody(doc), _ => [JInt(1), JInt(2)]);
            one == two
  {
  }

  /** A value extracted from a decoded body is `JNull`, the only match, or the
      list of all matches, and the log call says which case applied. */
  lemma ExtractionRecoversMatches(doc: Json, find: Json -> seq<Json>)
    ensures var x := ExtractByJsonPath(JsonBody(doc), find);
            (x.event == WarningEvent <==> find(doc) == [])
            && (x.event == NoteEvent && !x.value.JArray? ==> find(doc) == [x.value])
            && (x.event == NoteEvent && |find(doc)| != 1 ==> x.value == JArray(find(doc)))
  {
  }

  /** The expected content of `verify_response_contains`, in dict order. */
  type Expectation = seq<(string, Json)>

  /** Every expected key is in the object with a value equal to the expected one. */
  predicate ContainsAll(fields: map<string, Json>, expected: Expectation)
  {
    forall i :: 0 <= i < |expected| ==>
      expected[i].0 in fields && PyEq(fields[expected[i].0], expected[i].1)
  }

  /** What `verify_response_contains` as written does: answers, or raises the
      `TypeError` Python raises on `in` or indexing of a non-dict body. */
  datatype ContainsOutcome = Answer(passed: bool) | TypeError

  /** `key in s` for Python strings: `key` is a substring of `s`. */
  predicate IsSubstring(key: string, s: string)
  {
    key <= s || (s != [] && IsSubstring(key, s[1..]))
  }

  /** `verify_response_contains` as written, from expected entry `i` on: `key in
      body` works on dicts, lists (membership) and strings (substring) and raises
      on other values; `body[key]` raises on lists and strings. */
  function ContainsAsWritten(body: Body, expected: Expectation, i: nat): (r: ContainsOutcome)
    requires i <= |expected|
    ensures r.TypeError? ==> body.JsonBody? && !body.value.JObject? && i < |expected|
    ensures body.NotJson? ==> r == Answer(false)
    decreases |expected| - i
  {
    if body.NotJson? then Answer(false)
    else if i == |expected| then Answer(true)
    else
      var (key, value) := expected[i];
      match body.value
      case JObject(fields) =>
        if key !in fields then Answer(false)
        else if !PyEq(fields[key], value) then Answer(false)
        else ContainsAsWritten(body, expected, i + 1)
      case JArray(items) => if JString(key) in items then TypeError else Answer(false)
      case JString(s) => if IsSubstring(key, s) then TypeError else Answer(false)
      case _ => TypeError
  }

  /** The code as written raises instead of returning false when the body is
      JSON but not an object: a body `5` with expected `{"id": 1}`, or a list
      body holding the string "id". */
  lemma ContainsAsWrittenRaises()
    ensures ContainsAsWritten(JsonBody(JInt(5)), [("id", JInt(1))], 0) == TypeError
    ensures ContainsAsWritten(JsonBody(JArray([JString("id")])), [("id", JInt(1))], 0) == TypeError
    ensures ContainsAsWritten(JsonBody(JNull), [("id", JInt(1))], 0) == TypeError
  {
  }

  /** On an object body (and on a body that does not decode) the code as written
      agrees with the corrected check. */
  lemma {:induction false} ContainsAsWrittenOnObjects(body: Body, expected: Expectation, i: nat)
    requires i <= |expected|
    requires body.NotJson? || body.value.JObject?
    ensures ContainsAsWritten(body, expected, i)
         == Answer(body.JsonBody? && ContainsAll(body.value.fields, expected[i..]))
    decreases |expected| - i
  {
    if body.JsonBody? && i < |expected| {
      var fields := body.value.fields;
      var (key, value) := expected[i];
      assert expected[i..][0] == expected[i];
      if key in fields && PyEq(fields[key], value) {
        ContainsAsWrittenOnObjects(body, expected, i + 1);
        assert expected[i..][1..] == expected[i + 1..];
        if ContainsAll(fields, expected[i + 1..]) {
          forall j | 0 <= j < |expected[i..]|
            ensures expected[i..][j].0 in fields && PyEq(fields[expected[i..][j].0], expected[i..][j].1)
          {
            if j > 0 {
              assert expected[i..][j] == expected[i + 1..][j - 1];
            }
          }
        } else {
          var j :| 0 <= j < |expected[i + 1..]| &&
            !(expected[i + 1..][j].0 in fields && PyEq(fields[expected[i + 1..][j].0], expected[i + 1..][j].1));
          assert expected[i + 1..][j] == expected[i..][j + 1];
        }
      }
    }
  }

  /** `verify_response_contains` as evidently intended: a body that does not
      decode fails; otherwise every expected key must be present with a
      Python-equal value, and a decoded body that is not an object holds no
      key at all, so it passes only the empty expectation. */
  predicate ContainsCorrected(body: Body, expected: Expectation)
  {
    && body.JsonBody?
    && (if body.value.JObject? then ContainsAll(body.value.fields, expected) else expected == [])
  }

  /** Wherever the code as written answers instead of raising, it gives the
      corrected answer: the correction changes only the inputs that raise. */
  lemma ContainsAsWrittenAgreesWhenItAnswers(body: Body, expected: Expectation, i: nat)
    requires i <= |expected|
    ensures ContainsAsWritten(body, expected, i).Answer? ==>
      ContainsAsWritten(body, expected, i).passed == ContainsCorrected(body, expected[i..])
  {
    if body.NotJson? || body.value.JObject? {
      ContainsAsWrittenOnObjects(body, expected, i);
    } else if i == |expected| {
      assert expected[i..] == [];
    }
  }

  /** `verify_response_contains`, corrected so that it never raises: passes
      exactly when `ContainsCorrected` holds, stopping at the first missing or
      different key. */
  method VerifyResponseContains(body: Body, expected: Expectation) returns (c: Check)
    ensures c.passed <==> ContainsCorrected(body, expected)
    ensures c.event == if c.passed then SuccessEvent else ErrorEvent
  {
    if body.NotJson? {
      return Check(false, ErrorEvent);
    }
    if !body.value.JObject? {
      if expected == [] {
        return Check(true, SuccessEvent);
      }
      return Check(false, ErrorEvent);
    }
    var fields := body.value.fields;
    var i := 0;
    while i < |expected|
      invariant 0 <= i <= |expected|
      invariant ContainsAll(fields, expected[..i])
    {
      var (key, value) := expected[i];
      if key !in fields || !PyEq(fields[key], value) {
        return Check(false, ErrorEvent);
      }
      assert expected[..i + 1] == expected[..i] + [expected[i]];
      i := i + 1;
    }
    assert expected[..i] == expected;
    return Check(true, SuccessEvent);
  }
}
