/** The forwarder of `src/services/proxyService.js`: how a client request becomes the upstream call's
    configuration, how the call's outcome becomes the `{success, request, response, duration, error}`
    envelope the routes relay and log, and the health probe. The upstream call itself (axios) is a
    function from configuration to outcome, and the two clock readings are parameters. */
module ProxyService {
  import opened Js
  import opened Http

  /** The request fields the route hands over: method (`verb`, since `method` is a keyword here),
      path, headers, query and body. */
  datatype ProxyRequest = ProxyRequest(verb: string, path: string, headers: Value, query: Value, body: Value)

  /** The configuration object passed to axios; `data` is absent unless the body is forwarded. */
  datatype AxiosConfig = AxiosConfig(
    verb: string,
    url: Value,
    headers: Value,
    params: Value,
    timeout: nat,
    data: Option<Value>)

  /** A reply received from the upstream. */
  datatype Reply = Reply(status: HttpStatus, headers: Value, data: Value)

  /** What awaiting the upstream call yields: a reply, or a rejection carrying the error's message
      and code and, when the upstream did answer, its reply. Which statuses reject is axios's choice. */
  datatype Outcome =
    | Completed(reply: Reply)
    | Rejected(message: Value, code: Value, failed: Option<Reply>)

  type Upstream = AxiosConfig -> Outcome

  datatype ResponseView = ResponseView(status: Value, headers: Value, data: Value)

  datatype ErrorInfo = ErrorInfo(message: Value, code: Value, status: Value)

  /** The forwarder's result. `response` and `error` stand for fields that JavaScript may hold as
      null; the routes read them without assuming which. */
  datatype Envelope = Envelope(
    success: bool,
    request: ProxyRequest,
    response: Option<ResponseView>,
    duration: int,
    error: Option<ErrorInfo>)

  const ForwardTimeout: nat := 30000
  const ProbeTimeout: nat := 5000

  /** `this.targetUrl + path`: the configured target, printed as JavaScript prints it, followed by
      the path exactly as received. */
  function TargetUrl(target: Value, path: string): (url: Value)
    ensures url.Str? && |url.s| >= |path| && url.s[|url.s| - |path|..] == path
    ensures target.Str? ==> url.s == target.s + path
    ensures target.Undefined? ==> url.s == "undefined" + path
  {
    Str(Show(target) + path)
  }

  /** The configuration `forwardRequest` hands to axios for a request. */
  function ConfigFor(target: Value, req: ProxyRequest): (c: AxiosConfig)
    ensures c.verb == ToLowerAscii(req.verb)
    ensures c.url == TargetUrl(target, req.path)
    ensures Truthy(req.headers) ==> c.headers == req.headers
    ensures !Truthy(req.headers) ==> c.headers == Obj([])
    ensures Truthy(req.query) ==> c.params == req.query
    ensures !Truthy(req.query) ==> c.params == Obj([])
    ensures c.timeout == 30000
    ensures c.data.Some? <==> ToUpperAscii(req.verb) != "GET" && Truthy(req.body)
    ensures c.data.Some? ==> c.data.value == req.body
  {
    AxiosConfig(
      ToLowerAscii(req.verb),
      TargetUrl(target, req.path),
      Or(req.headers, Obj([])),
      Or(req.query, Obj([])),
      ForwardTimeout,
      if ToUpperAscii(req.verb) != "GET" && Truthy(req.body) then Some(req.body) else None)
  }

  /** The envelope for an outcome. A completed call copies the reply; a rejected one records the
      error and keeps of the reply, if any, only its truthy fields, every other field being null. */
  function EnvelopeOf(req: ProxyRequest, outcome: Outcome, duration: int): (e: Envelope)
    ensures e.request == req && e.duration == duration
    ensures e.success <==> outcome.Completed?
    ensures e.error.None? <==> e.success
    ensures e.response.Some?
    ensures outcome.Completed? ==>
      e.response.value == ResponseView(Num(outcome.reply.status), outcome.reply.headers, outcome.reply.data)
    ensures outcome.Rejected? && outcome.failed.Some? ==>
      && e.error == Some(ErrorInfo(outcome.message, outcome.code, Num(outcome.failed.value.status)))
      && e.response.value.status == Num(outcome.failed.value.status)
      && (Truthy(outcome.failed.value.headers) ==> e.response.value.headers == outcome.failed.value.headers)
      && (!Truthy(outcome.failed.value.headers) ==> e.response.value.headers == Null)
      && (Truthy(outcome.failed.value.data) ==> e.response.value.data == outcome.failed.value.data)
      && (!Truthy(outcome.failed.value.data) ==> e.response.value.data == Null)
    ensures outcome.Rejected? && outcome.failed.None? ==>
      && e.error == Some(ErrorInfo(outcome.message, outcome.code, Undefined))
      && e.response.value == ResponseView(Null, Null, Null)
  {
    match outcome
    case Completed(reply) =>
      Envelope(true, req, Some(ResponseView(Num(reply.status), reply.headers, reply.data)), duration, None)
    case Rejected(message, code, failed) =>
      var status := if failed.Some? then Num(failed.value.status) else Undefined;
      var view :=
        if failed.Some? then ResponseView(Or(status, Null), Or(failed.value.headers, Null), Or(failed.value.data, Null))
        else ResponseView(Null, Null, Null);
      Envelope(false, req, Some(view), duration, Some(ErrorInfo(message, code, status)))
  }

  /** The probe `healthCheck` sends: a GET of the bare target with a five-second timeout. */
  function ProbeConfig(target: Value): AxiosConfig
  {
    AxiosConfig("get", target, Undefined, Undefined, ProbeTimeout, None)
  }

  /** `healthCheck`'s verdict on the probe's outcome. */
  predicate ProbeHealthy(outcome: Outcome)
  {
    outcome.Completed? && outcome.reply.status == 200
  }

  class ProxyService {
    /** `process.env.TARGET_API_URL` as read when the service is created: a string, or undefined. */
    const targetUrl: Value

    constructor(targetUrl: Value)
      ensures this.targetUrl == targetUrl
    {
      this.targetUrl := targetUrl;
    }

    /** Builds the axios configuration: the literal object first, then `data` added only for a
        method other than GET with a truthy body. */
    method BuildConfig(req: ProxyRequest) returns (config: AxiosConfig)
      ensures config == ConfigFor(targetUrl, req)
    {
      var url := TargetUrl(targetUrl, req.path);
      config := AxiosConfig(ToLowerAscii(req.verb), url, Or(req.headers, Obj([])), Or(req.query, Obj([])),
        ForwardTimeout, None);
      if ToUpperAscii(req.verb) != "GET" && Truthy(req.body) {
        config := config.(data := Some(req.body));
      }
    }

    /** `forwardRequest`: builds the configuration, awaits the upstream and wraps its outcome; the
        duration is the difference of the clock readings taken before and after. */
    method ForwardRequest(req: ProxyRequest, upstream: Upstream, startMs: int, endMs: int) returns (e: Envelope)
      ensures e == EnvelopeOf(req, upstream(ConfigFor(targetUrl, req)), endMs - startMs)
    {
      var config := BuildConfig(req);
      var outcome := upstream(config);
      var duration := endMs - startMs;
      e := EnvelopeOf(req, outcome, duration);
    }

    /** `healthCheck`: true exactly when the probe completes with status 200. */
    function HealthCheck(upstream: Upstream): (healthy: bool)
      ensures healthy <==> ProbeHealthy(upstream(ProbeConfig(targetUrl)))
    {
      var outcome := upstream(ProbeConfig(targetUrl));
      match outcome
      case Completed(reply) => reply.status == 200
      case Rejected(_, _, _) => false
    }
  }

  // ---------------------------------------------------------------------------
  // Properties of the configuration

  /** A GET, in whatever letter case it arrives, never carries a body upstream; any other method
      carries exactly the truthy bodies. */
  lemma GetCarriesNoBody(target: Value, req: ProxyRequest)
    ensures ToLowerAscii(req.verb) == "get" ==> ConfigFor(target, req).data.None?
    ensures ToUpperAscii(req.verb) != "GET" ==>
      (ConfigFor(target, req).data == Some(req.body) <==> Truthy(req.body))
  {
    if ToLowerAscii(req.verb) == "get" {
      UpperOfLower(req.verb);
      assert ToUpperAscii("get") == "GET";
    }
  }

  /** The configuration never hands axios a falsy headers or params object, and the method it
      sends is already lower case. */
  lemma ConfigIsNormalised(target: Value, req: ProxyRequest)
    ensures Truthy(ConfigFor(target, req).headers) && Truthy(ConfigFor(target, req).params)
    ensures ToLowerAscii(ConfigFor(target, req).verb) == ConfigFor(target, req).verb
  {
    var m := ConfigFor(target, req).verb;
    assert ToLowerAscii(m) == m by {
      forall i | 0 <= i < |m| ensures LowerAscii(m[i]) == m[i] {
        assert m[i] == LowerAscii(req.verb[i]);
      }
    }
  }

  // ---------------------------------------------------------------------------
  // Properties of the envelope

  /** In a rejection's response every field is either null or a truthy value: nothing falsy from
      the reply survives, and a reply-less failure is all null. */
  lemma RejectedFieldsNullOrTruthy(req: ProxyRequest, message: Value, code: Value, failed: Option<Reply>, duration: int)
    ensures var view := EnvelopeOf(req, Rejected(message, code, failed), duration).response.value;
      && (view.status == Null || Truthy(view.status))
      && (view.headers == Null || Truthy(view.headers))
      && (view.data == Null || Truthy(view.data))
    ensures failed.None? ==>
      !Truthy(EnvelopeOf(req, Rejected(message, code, failed), duration).response.value.status)
  {
  }

  // ---------------------------------------------------------------------------
  // Properties of the health check

  /** A rejected probe is unhealthy even when the rejection carries a 200 reply, and a completed
      probe is healthy with 200 and with no other status. */
  lemma HealthOnlyOnCompleted200(service: ProxyService, upstream: Upstream)
    ensures upstream(ProbeConfig(service.targetUrl)).Rejected? ==> !service.HealthCheck(upstream)
    ensures upstream(ProbeConfig(service.targetUrl)).Completed? ==>
      (service.HealthCheck(upstream) <==> upstream(ProbeConfig(service.targetUrl)).reply.status == 200)
  {
  }
}
