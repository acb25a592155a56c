/** The proxy route of `src/routes/proxyRoutes.js`: `handleProxyRequest` forwards the client's
    request, writes the upstream's answer back to the client, and only then schedules the log write;
    and the health route. What the handler does to the response is recorded in a `Trace`. */
module ProxyRoutes {
  import opened Js
  import opened LogWriter
  import opened Http
  import opened ProxyService

  /** The fields of the Express request the handler reads; `verb` is `req.method`, `ip` is `req.ip`
      and `remoteAddress` is `req.connection.remoteAddress`. */
  datatype ClientRequest = ClientRequest(
    verb: string,
    originalUrl: string,
    path: string,
    headers: Value,
    query: Value,
    body: Value,
    ip: Value,
    remoteAddress: Value)

  /** What the handler sends to the client in place of a response when handling throws. */
  const InternalError: string := "服务器内部错误"

  function ServiceRequest(req: ClientRequest): ProxyRequest
  {
    ProxyRequest(req.verb, req.path, req.headers, req.query, req.body)
  }

  function ClientIp(req: ClientRequest): Value
  {
    Or(req.ip, req.remoteAddress)
  }

  function UserAgent(req: ClientRequest): Value
  {
    Or(Get(req.headers, "user-agent"), Str(""))
  }

  /** The envelope the forwarder hands back for `req`. */
  function ForwardedEnvelope(target: Value, req: ClientRequest, upstream: Upstream, duration: int): Envelope
  {
    EnvelopeOf(ServiceRequest(req), upstream(ConfigFor(target, ServiceRequest(req))), duration)
  }

  // ---------------------------------------------------------------------------
  // Relaying the upstream's answer

  /** The names `Object.keys(headers || {})` lists. */
  function HeaderKeys(headers: Value): seq<string>
  {
    var h := Or(headers, Obj([]));
    if h.Obj? then seq(|h.entries|, i requires 0 <= i < |h.entries| => h.entries[i].0) else []
  }

  /** One `setHeader` per listed name, with the value the headers object holds under it. */
  function HeaderEvents(headers: Value, keys: seq<string>): (r: seq<Event>)
    ensures |r| == |keys|
    ensures forall i :: 0 <= i < |keys| ==> r[i] == HeaderSet(keys[i], Get(headers, keys[i]))
  {
    if keys == [] then []
    else HeaderEvents(headers, keys[..|keys| - 1]) + [HeaderSet(keys[|keys| - 1], Get(headers, keys[|keys| - 1]))]
  }

  function Relayed(headers: Value): seq<Event>
  {
    HeaderEvents(headers, HeaderKeys(headers))
  }

  /** What writing an answer does: the events it leaves and the message of what it throws, if it
      throws. */
  datatype Reaction = Reaction(events: seq<Event>, thrown: Option<string>)

  /** Relaying a response object: every header, then its status and data; an invalid status
      throws after the headers are set, and nothing is sent. */
  function Relay(view: ResponseView): Reaction
  {
    if ValidStatus(view.status) then Reaction(Relayed(view.headers) + [Sent(view.status.n, view.data)], None)
    else Reaction(Relayed(view.headers), Some(InvalidStatusMessage(view.status)))
  }

  /** The answer `handleProxyRequest` writes, as written: a success is relayed, and so is a failure
      that carries a response object; a failure without one gets its error message as a 500. */
  function Respond(e: Envelope): Reaction
  {
    if e.success then
      if e.response.Some? then Relay(e.response.value) else Reaction([], Some(NullReadMessage("headers")))
    else if e.response.Some? then Relay(e.response.value)
    else if e.error.Some? then Reaction([Sent(500, e.error.value.message)], None)
    else Reaction([], Some(NullReadMessage("message")))
  }

  /** The answer with the evidently intended guard: a failure is relayed only when its response
      carries a status, and otherwise gets its error message as a 500. */
  function RespondCorrected(e: Envelope): Reaction
  {
    if e.success then
      if e.response.Some? then Relay(e.response.value) else Reaction([], Some(NullReadMessage("headers")))
    else if e.response.Some? && Truthy(e.response.value.status) then Relay(e.response.value)
    else if e.error.Some? then Reaction([Sent(500, e.error.value.message)], None)
    else Reaction([], Some(NullReadMessage("message")))
  }

  /** The record the deferred task hands to `saveLog`, or `None` when the task throws reading the
      null response before it gets that far (the throw is caught and only logged). */
  function LogRecord(req: ClientRequest, requestId: string, e: Envelope): (r: Option<LogData>)
    ensures r.Some? <==> e.response.Some?
  {
    if e.response.None? then None
    else
      var view := e.response.value;
      Some(LogData(
        requestId := Str(requestId),
        requestMethod := Str(req.verb),
        requestUrl := Str(req.originalUrl),
        requestPath := Str(req.path),
        requestQuery := req.query,
        requestHeaders := req.headers,
        requestBody := req.body,
        responseStatus := view.status,
        responseHeaders := view.headers,
        responseBody := view.data,
        duration := Num(e.duration),
        success := Bool(e.success),
        errorMessage := if e.error.Some? then e.error.value.message else Null,
        ipAddress := ClientIp(req),
        userAgent := UserAgent(req)))
  }

  /** The 500 JSON body sent when handling throws. */
  function ErrorBody(message: string): Value
  {
    Obj([("error", Str(InternalError)), ("message", Str(message))])
  }

  /** After the answer: a throw turns into the 500 JSON answer and nothing is scheduled; otherwise
      the log write is scheduled. */
  function Finish(req: ClientRequest, requestId: string, e: Envelope, r: Reaction): seq<Event>
  {
    r.events + (if r.thrown.Some? then [JsonSent(500, ErrorBody(r.thrown.value))] else [LogScheduled(LogRecord(req, requestId, e))])
  }

  /** Everything `handleProxyRequest` does with an envelope, as written. */
  function ProxyTrace(req: ClientRequest, requestId: string, e: Envelope): seq<Event>
  {
    Finish(req, requestId, e, Respond(e))
  }

  /** The same with the corrected guard. */
  function ProxyTraceCorrected(req: ClientRequest, requestId: string, e: Envelope): seq<Event>
  {
    Finish(req, requestId, e, RespondCorrected(e))
  }

  // ---------------------------------------------------------------------------
  // The handler

  /** The `forEach` over the header names. */
  method RelayHeaders(trace: Trace, headers: Value)
    modifies trace
    ensures trace.events == old(trace.events) + Relayed(headers)
  {
    var keys := HeaderKeys(headers);
    var i := 0;
    while i < |keys|
      invariant 0 <= i <= |keys|
      invariant trace.events == old(trace.events) + HeaderEvents(headers, keys[..i])
    {
      assert keys[..i + 1][..i] == keys[..i];
      trace.SetHeader(keys[i], Get(headers, keys[i]));
      i := i + 1;
    }
    assert keys[..i] == keys;
  }

  method RelayResponse(trace: Trace, view: ResponseView) returns (thrown: Option<string>)
    modifies trace
    ensures trace.events == old(trace.events) + Relay(view).events && thrown == Relay(view).thrown
  {
    RelayHeaders(trace, view.headers);
    thrown := trace.Send(view.status, view.data);
  }

  /** The answer `handleProxyRequest` writes, as written. */
  method WriteAnswer(trace: Trace, e: Envelope) returns (thrown: Option<string>)
    modifies trace
    ensures trace.events == old(trace.events) + Respond(e).events && thrown == Respond(e).thrown
  {
    if e.success {
      if e.response.None? {
        return Some(NullReadMessage("headers"));
      }
      thrown := RelayResponse(trace, e.response.value);
    } else if e.response.Some? {
      thrown := RelayResponse(trace, e.response.value);
    } else if e.error.Some? {
      thrown := trace.Send(Num(500), e.error.value.message);
    } else {
      thrown := Some(NullReadMessage("message"));
    }
  }

  /** The same answer with a failure relayed only when its response carries a status. */
  method WriteAnswerCorrected(trace: Trace, e: Envelope) returns (thrown: Option<string>)
    modifies trace
    ensures trace.events == old(trace.events) + RespondCorrected(e).events && thrown == RespondCorrected(e).thrown
  {
    if e.success {
      if e.response.None? {
        return Some(NullReadMessage("headers"));
      }
      thrown := RelayResponse(trace, e.response.value);
    } else if e.response.Some? && Truthy(e.response.value.status) {
      thrown := RelayResponse(trace, e.response.value);
    } else if e.error.Some? {
      thrown := trace.Send(Num(500), e.error.value.message);
    } else {
      thrown := Some(NullReadMessage("message"));
    }
  }

  /** The 500 JSON answer for a throw, or the deferred log write. */
  method Conclude(trace: Trace, req: ClientRequest, requestId: string, e: Envelope, thrown: Option<string>)
    modifies trace
    ensures trace.events == old(trace.events) +
      (if thrown.Some? then [JsonSent(500, ErrorBody(thrown.value))] else [LogScheduled(LogRecord(req, requestId, e))])
  {
    if thrown.Some? {
      trace.Json(500, ErrorBody(thrown.value));
    } else {
      trace.ScheduleLog(LogRecord(req, requestId, e));
    }
  }

  /** `handleProxyRequest`: one request id from the clock and the random suffix, the forwarded
      call timed by the two clock readings, the answer, then the scheduled log write. */
  method HandleProxyRequest(service: ProxyService, trace: Trace, req: ClientRequest, upstream: Upstream,
                            nowMs: nat, suffix: string, startMs: int, endMs: int)
    modifies trace
    ensures trace.events == old(trace.events) +
      ProxyTrace(req, GenerateRequestId(nowMs, suffix), ForwardedEnvelope(service.targetUrl, req, upstream, endMs - startMs))
  {
    var requestId := GenerateRequestId(nowMs, suffix);
    var result := service.ForwardRequest(ServiceRequest(req), upstream, startMs, endMs);
    var thrown := WriteAnswer(trace, result);
    Conclude(trace, req, requestId, result, thrown);
  }

  /** `handleProxyRequest` with the corrected guard. */
  method HandleProxyRequestCorrected(service: ProxyService, trace: Trace, req: ClientRequest, upstream: Upstream,
                                     nowMs: nat, suffix: string, startMs: int, endMs: int)
    modifies trace
    ensures trace.events == old(trace.events) +
      ProxyTraceCorrected(req, GenerateRequestId(nowMs, suffix), ForwardedEnvelope(service.targetUrl, req, upstream, endMs - startMs))
  {
    var requestId := GenerateRequestId(nowMs, suffix);
    var result := service.ForwardRequest(ServiceRequest(req), upstream, startMs, endMs);
    var thrown := WriteAnswerCorrected(trace, result);
    Conclude(trace, req, requestId, result, thrown);
  }

  /** The body of the health route's answer. */
  function HealthBody(healthy: bool, timestamp: string, target: Value): Value
  {
    Obj([("status", Str("ok")), ("timestamp", Str(timestamp)),
         ("target", Obj([("healthy", Bool(healthy)), ("url", target)]))])
  }

  /** `GET /health`: the probe's verdict and the configured target, stamped with the given time. */
  method Health(service: ProxyService, trace: Trace, upstream: Upstream, timestamp: string)
    modifies trace
    ensures trace.events == old(trace.events) +
      [JsonSent(200, HealthBody(service.HealthCheck(upstream), timestamp, service.targetUrl))]
  {
    var healthy := service.HealthCheck(upstream);
    trace.Json(200, HealthBody(healthy, timestamp, service.targetUrl));
  }

  // ---------------------------------------------------------------------------
  // What the client receives

  /** For a headers object whose names are distinct, every header is set with its own value, in
      order; a missing headers object sets none. */
  lemma EveryHeaderRelayed(entries: seq<(string, Value)>)
    requires forall a, b :: 0 <= a < b < |entries| ==> entries[a].0 != entries[b].0
    ensures |Relayed(Obj(entries))| == |entries|
    ensures forall i :: 0 <= i < |entries| ==> Relayed(Obj(entries))[i] == HeaderSet(entries[i].0, entries[i].1)
    ensures Relayed(Null) == [] && Relayed(Undefined) == []
  {
    forall i | 0 <= i < |entries|
      ensures Lookup(entries, entries[i].0) == entries[i].1
    {
      LookupDistinct(entries, i);
    }
  }

  lemma {:induction false} LookupDistinct(entries: seq<(string, Value)>, i: nat)
    requires i < |entries|
    requires forall a, b :: 0 <= a < b < |entries| ==> entries[a].0 != entries[b].0
    ensures Lookup(entries, entries[i].0) == entries[i].1
  {
    if i > 0 {
      assert entries[0].0 != entries[i].0;
      assert entries[1..][i - 1] == entries[i];
      LookupDistinct(entries[1..], i - 1);
    }
  }

  /** Composed with the forwarder, the plain-text 500 branch is never taken: every envelope carries
      a response object, so every answer is a relay of it. */
  lemma ForwardedAlwaysRelayed(target: Value, req: ClientRequest, upstream: Upstream, duration: int)
    ensures var e := ForwardedEnvelope(target, req, upstream, duration);
      e.response.Some? && Respond(e) == Relay(e.response.value)
  {
  }

  /** A completed call: the upstream's headers, status and data reach the client unchanged, then
      the log write is scheduled with a record. */
  lemma CompletedIsRelayed(target: Value, req: ClientRequest, upstream: Upstream, duration: int, requestId: string)
    requires upstream(ConfigFor(target, ServiceRequest(req))).Completed?
    ensures var reply := upstream(ConfigFor(target, ServiceRequest(req))).reply;
      var e := ForwardedEnvelope(target, req, upstream, duration);
      && LogRecord(req, requestId, e).Some?
      && ProxyTrace(req, requestId, e) ==
        Relayed(reply.headers) + [Sent(reply.status, reply.data), LogScheduled(LogRecord(req, requestId, e))]
  {
  }

  /** A rejected call that carries a reply is relayed the same way, with its falsy headers or data
      replaced by null, then the log write is scheduled. */
  lemma RejectedReplyIsRelayed(target: Value, req: ClientRequest, upstream: Upstream, duration: int, requestId: string)
    requires upstream(ConfigFor(target, ServiceRequest(req))).Rejected?
    requires upstream(ConfigFor(target, ServiceRequest(req))).failed.Some?
    ensures var reply := upstream(ConfigFor(target, ServiceRequest(req))).failed.value;
      var e := ForwardedEnvelope(target, req, upstream, duration);
      && LogRecord(req, requestId, e).Some?
      && ProxyTrace(req, requestId, e) ==
        Relayed(Or(reply.headers, Null)) + [Sent(reply.status, Or(reply.data, Null)), LogScheduled(LogRecord(req, requestId, e))]
  {
  }

  /** As written, a call that fails without any reply (a refused connection, a timeout) relays the
      status null: sending throws, the client gets the 500 JSON answer instead, and the log write
      is never scheduled. */
  lemma ReplylessFailureDropsLog(target: Value, req: ClientRequest, upstream: Upstream, duration: int, requestId: string)
    requires upstream(ConfigFor(target, ServiceRequest(req))).Rejected?
    requires upstream(ConfigFor(target, ServiceRequest(req))).failed.None?
    ensures var t := ProxyTrace(req, requestId, ForwardedEnvelope(target, req, upstream, duration));
      && t == [JsonSent(500, ErrorBody("Invalid status code: null"))]
      && forall i :: 0 <= i < |t| ==> !t[i].LogScheduled?
  {
    var e := ForwardedEnvelope(target, req, upstream, duration);
    assert HeaderKeys(Null) == [];
    assert Relay(e.response.value) == Reaction([], Some(InvalidStatusMessage(Null)));
    assert InvalidStatusMessage(Null) == "Invalid status code: null";
  }

  /** With the corrected guard, the reply-less failure gets its error message as a 500 and is
      logged; every forwarded call now ends with a scheduled log write that has a record, and the
      500 JSON answer never occurs. Every other outcome is handled exactly as before. */
  lemma CorrectedAlwaysLogs(target: Value, req: ClientRequest, upstream: Upstream, duration: int, requestId: string)
    ensures var e := ForwardedEnvelope(target, req, upstream, duration);
      var t := ProxyTraceCorrected(req, requestId, e);
      && |t| >= 2
      && t[|t| - 1] == LogScheduled(LogRecord(req, requestId, e))
      && LogRecord(req, requestId, e).Some?
      && (forall i :: 0 <= i < |t| ==> !t[i].JsonSent?)
    ensures var outcome := upstream(ConfigFor(target, ServiceRequest(req)));
      var e := ForwardedEnvelope(target, req, upstream, duration);
      && (outcome.Rejected? && outcome.failed.None? ==>
            ProxyTraceCorrected(req, requestId, e) == [Sent(500, outcome.message), LogScheduled(LogRecord(req, requestId, e))])
      && (outcome.Completed? || outcome.failed.Some? ==>
            ProxyTraceCorrected(req, requestId, e) == ProxyTrace(req, requestId, e))
  {
    var e := ForwardedEnvelope(target, req, upstream, duration);
    var r := RespondCorrected(e);
    assert r.thrown.None? && |r.events| >= 1 && forall i :: 0 <= i < |r.events| ==> !r.events[i].JsonSent? by {
      var view := e.response.value;
      if e.success || Truthy(view.status) {
        assert ValidStatus(view.status);
      }
    }
  }

  // ---------------------------------------------------------------------------
  // Ordering: the answer first, the log write after

  predicate IsAnswer(ev: Event)
  {
    ev.Sent? || ev.JsonSent?
  }

  /** The client gets exactly one answer, after nothing but headers; a log write is scheduled at most
      once, and only as the very last step, after the answer. */
  predicate AnswerThenLog(t: seq<Event>)
  {
    exists n :: 0 <= n < |t| && IsAnswer(t[n]) &&
      (forall i :: 0 <= i < n ==> t[i].HeaderSet?) &&
      (n == |t| - 1 || (n == |t| - 2 && t[n + 1].LogScheduled?))
  }

  /** A reaction that sends ends with its one send after headers only; one that throws has set
      headers only. */
  predicate Sends(r: Reaction)
  {
    if r.thrown.None? then
      |r.events| >= 1 && r.events[|r.events| - 1].Sent? &&
      forall i :: 0 <= i < |r.events| - 1 ==> r.events[i].HeaderSet?
    else forall i :: 0 <= i < |r.events| ==> r.events[i].HeaderSet?
  }

  lemma RespondSends(e: Envelope)
    ensures Sends(Respond(e)) && Sends(RespondCorrected(e))
  {
    if e.response.Some? {
      var view := e.response.value;
      var h := Relayed(view.headers);
      assert forall i :: 0 <= i < |h| ==> h[i].HeaderSet?;
      if ValidStatus(view.status) {
        var evs := h + [Sent(view.status.n, view.data)];
        assert forall i :: 0 <= i < |evs| - 1 ==> evs[i] == h[i];
      }
    }
  }

  lemma {:induction false} FinishOrdered(req: ClientRequest, requestId: string, e: Envelope, r: Reaction)
    requires Sends(r)
    ensures AnswerThenLog(Finish(req, requestId, e, r))
  {
    var t := Finish(req, requestId, e, r);
    if r.thrown.Some? {
      var n := |r.events|;
      assert IsAnswer(t[n]) && forall i :: 0 <= i < n ==> t[i] == r.events[i];
    } else {
      var n := |r.events| - 1;
      assert IsAnswer(t[n]) && forall i :: 0 <= i < n ==> t[i] == r.events[i];
      assert t[n + 1].LogScheduled?;
    }
  }

  /** Whatever the envelope, as written and corrected alike, the answer precedes the log write. */
  lemma AnswerBeforeLog(req: ClientRequest, requestId: string, e: Envelope)
    ensures AnswerThenLog(ProxyTrace(req, requestId, e))
    ensures AnswerThenLog(ProxyTraceCorrected(req, requestId, e))
  {
    RespondSends(e);
    FinishOrdered(req, requestId, e, Respond(e));
    FinishOrdered(req, requestId, e, RespondCorrected(e));
  }

  // ---------------------------------------------------------------------------
  // The log record

  /** The row the scheduled record becomes: it is stored under the handler's request id, marks
      success exactly for a completed call, keeps the upstream's status whenever there was a reply,
      stores the error message only for a failure, and the user agent or ''. */
  lemma LoggedRow(target: Value, req: ClientRequest, upstream: Upstream, duration: int,
                  nowMs: nat, suffix: string, generatedId: string, json: Stringify)
    requires var e := ForwardedEnvelope(target, req, upstream, duration);
      SaveLogParams(LogRecord(req, GenerateRequestId(nowMs, suffix), e).value, generatedId, json).Some?
    ensures var outcome := upstream(ConfigFor(target, ServiceRequest(req)));
      var e := ForwardedEnvelope(target, req, upstream, duration);
      var row := SaveLogParams(LogRecord(req, GenerateRequestId(nowMs, suffix), e).value, generatedId, json).value;
      && |row| == 15
      && row[0] == Str(GenerateRequestId(nowMs, suffix))
      && (row[11] == Num(1) <==> outcome.Completed?)
      && (outcome.Completed? ==> row[7] == Num(outcome.reply.status) && row[12] == Null)
      && (outcome.Rejected? && outcome.failed.Some? ==> row[7] == Num(outcome.failed.value.status))
      && (outcome.Rejected? && outcome.failed.None? ==> row[7] == Null)
      && (outcome.Rejected? ==> row[12] == Or(outcome.message, Null))
      && row[14] == UserAgent(req)
  {
    var e := ForwardedEnvelope(target, req, upstream, duration);
    var d := LogRecord(req, GenerateRequestId(nowMs, suffix), e).value;
    SaveLogTexts(d, generatedId, json);
    SaveLogOutcome(d, generatedId, json);
  }
}
