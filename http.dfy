/** The part of an Express response that the routes use, seen as a trace of what they do to it:
    headers set, one body sent (as is or as JSON), and, for the proxy route, the log write it
    schedules afterwards. Sending checks the status code the way Node's http layer does. */
module Http {
  import opened Js
  import opened LogWriter

  /** A status code Node's http layer accepts on the status line. */
  type HttpStatus = s: int | 100 <= s <= 999 witness 200

  datatype Event =
    | HeaderSet(name: string, value: Value)
    | Sent(status: HttpStatus, body: Value)
    | JsonSent(status: HttpStatus, body: Value)
    | LogScheduled(record: Option<LogData>)

  /** Whether a status set with `res.status(v)` survives the check made when the head is written,
      for the values a response status can hold here: a number, or null. */
  predicate ValidStatus(v: Value)
  {
    v.Num? && 100 <= v.n <= 999
  }

  /** The message of the error thrown when the status is rejected. */
  function InvalidStatusMessage(v: Value): string
  {
    "Invalid status code: " + Show(v)
  }

  /** The message of the TypeError thrown by reading `field` of null. */
  function NullReadMessage(field: string): string
  {
    "Cannot read properties of null (reading '" + field + "')"
  }

  class Trace {
    /** Everything done so far, oldest first. */
    var events: seq<Event>

    constructor()
      ensures events == []
    {
      events := [];
    }

    /** `res.setHeader(name, value)` */
    method SetHeader(name: string, value: Value)
      modifies this
      ensures events == old(events) + [HeaderSet(name, value)]
    {
      events := events + [HeaderSet(name, value)];
    }

    /** `res.status(status).send(body)`: the body goes out when the status is valid; otherwise
        nothing is written and the call throws, with the returned message. */
    method Send(status: Value, body: Value) returns (thrown: Option<string>)
      modifies this
      ensures ValidStatus(status) ==> thrown.None? && events == old(events) + [Sent(status.n, body)]
      ensures !ValidStatus(status) ==> thrown == Some(InvalidStatusMessage(status)) && events == old(events)
    {
      if ValidStatus(status) {
        events := events + [Sent(status.n, body)];
        thrown := None;
      } else {
        thrown := Some(InvalidStatusMessage(status));
      }
    }

    /** `res.status(status).json(body)` */
    method Json(status: HttpStatus, body: Value)
      modifies this
      ensures events == old(events) + [JsonSent(status, body)]
    {
      events := events + [JsonSent(status, body)];
    }

    /** `setImmediate(...)` of the task that saves `record`; `None` stands for a task that fails
        before it can build its record. */
    method ScheduleLog(record: Option<LogData>)
      modifies this
      ensures events == old(events) + [LogScheduled(record)]
    {
      events := events + [LogScheduled(record)];
    }
  }
}
