/** The write side of the log store (`LogModel.saveLog`, `stringifyBody`, `generateRequestId`):
    how a loose log record becomes the fifteen bound parameters of one INSERT into `api_logs`. */
module LogWriter {
  import opened Js
  import opened LogSql

  /** Bodies whose UTF-8 encoding is longer than 16 MiB are not stored. */
  const MaxBodyBytes: nat := 16 * 1024 * 1024

  /** What is stored instead of an oversized body ("data too large"). */
  const TooLargeMarker: string := "数据过大"

  /** `JSON.stringify`, left abstract: `None` when it throws. */
  type Stringify = Value -> Option<string>

  /** The text a body is stored as before the size check: a string as it is, anything else through
      `JSON.stringify`, falling back to `String(body)` when that throws. */
  function BodyText(body: Value, json: Stringify): string
  {
    if body.Str? then body.s
    else match json(body)
      case Some(t) => t
      case None => Show(body)
  }

  /** `stringifyBody`: null for null and undefined, otherwise the body's text, replaced as a whole by
      the marker when it is over the size limit. */
  function StringifyBody(body: Value, json: Stringify): (r: Option<string>)
    ensures r.None? <==> body.Undefined? || body.Null?
    ensures r.Some? && Utf8Length(BodyText(body, json)) > MaxBodyBytes ==> r.value == TooLargeMarker
    ensures r.Some? && Utf8Length(BodyText(body, json)) <= MaxBodyBytes ==> r.value == BodyText(body, json)
  {
    if body.Undefined? || body.Null? then None
    else
      var text := BodyText(body, json);
      if Utf8Length(text) > MaxBodyBytes then Some(TooLargeMarker) else Some(text)
  }

  lemma MarkerLength()
    ensures Utf8Length(TooLargeMarker) == 12
  {
  }

  /** A stored body is never longer than the limit, and is either the whole text or the marker,
      never a cut-down prefix of the text. */
  lemma StoredBodyBounded(body: Value, json: Stringify)
    requires StringifyBody(body, json).Some?
    ensures Utf8Length(StringifyBody(body, json).value) <= MaxBodyBytes
    ensures StringifyBody(body, json).value in {BodyText(body, json), TooLargeMarker}
  {
    MarkerLength();
  }

  /** A body with more than 16 Mi characters is over the limit whatever its characters are
      (a 17 MiB body, for one, is stored as the marker). */
  lemma LongBodyIsMarked(body: Value, json: Stringify)
    requires !body.Undefined? && !body.Null?
    requires |BodyText(body, json)| > MaxBodyBytes
    ensures StringifyBody(body, json) == Some(TooLargeMarker)
  {
  }

  /** Storing what was stored changes nothing: the stored text passes through `stringifyBody`
      unchanged. */
  lemma StringifyBodyIdempotent(body: Value, json: Stringify, json2: Stringify)
    requires StringifyBody(body, json).Some?
    ensures StringifyBody(Str(StringifyBody(body, json).value), json2) == StringifyBody(body, json)
  {
    MarkerLength();
  }

  // ---------------------------------------------------------------------------
  // saveLog

  /** The record `saveLog` is given; every field may be missing (undefined). */
  datatype LogData = LogData(
    requestId: Value,
    requestMethod: Value,
    requestUrl: Value,
    requestPath: Value,
    requestQuery: Value,
    requestHeaders: Value,
    requestBody: Value,
    responseStatus: Value,
    responseHeaders: Value,
    responseBody: Value,
    duration: Value,
    success: Value,
    errorMessage: Value,
    ipAddress: Value,
    userAgent: Value)

  /** `generateRequestId`: the clock in milliseconds, a dash, and a random base-36 suffix (both inputs). */
  function GenerateRequestId(nowMs: nat, randomSuffix: string): (id: string)
    ensures id != [] && id[0] != '-'
    ensures |id| > |randomSuffix| && id[|id| - |randomSuffix|..] == randomSuffix
    ensures id[|id| - |randomSuffix| - 1] == '-'
  {
    NatToString(nowMs) + "-" + randomSuffix
  }

  /** An id names its clock reading and its suffix: two ids are equal only when both are, so
      requests in different milliseconds never share an id (the base-36 suffix has no dash). */
  lemma RequestIdDeterminesParts(n1: nat, s1: string, n2: nat, s2: string)
    requires '-' !in s1 && '-' !in s2
    requires GenerateRequestId(n1, s1) == GenerateRequestId(n2, s2)
    ensures n1 == n2 && s1 == s2
  {
    var d1, d2 := NatToString(n1), NatToString(n2);
    assert '-' !in d1 && '-' !in d2;
    SplitAtFirst(d1, s1, '-');
    SplitAtFirst(d2, s2, '-');
    SplitWhole(s1, '-');
    SplitWhole(s2, '-');
    assert GenerateRequestId(n1, s1) == d1 + ['-'] + s1;
    assert GenerateRequestId(n2, s2) == d2 + ['-'] + s2;
    DigitsValueOfNatString(n1);
    DigitsValueOfNatString(n2);
  }

  /** The columns of the INSERT, in the order of its parameters. */
  const Columns: seq<string> := [
    "request_id", "request_method", "request_url", "request_path", "request_query",
    "request_headers", "request_body", "response_status", "response_headers",
    "response_body", "duration", "success", "error_message", "ip_address", "user_agent"]

  /** `?, ?, …, ?` with `n` placeholders. */
  function PlaceholderList(n: nat): string
  {
    if n <= 1 then (if n == 0 then "" else "?") else PlaceholderList(n - 1) + ", ?"
  }

  /** `INSERT INTO api_logs (<columns>) VALUES (?, …, ?)` */
  function InsertInto(columns: seq<string>): string
  {
    "INSERT INTO api_logs (" + Join(columns, ',') + ") VALUES (" + PlaceholderList(|columns|) + ")"
  }

  function InsertSql(): string
  {
    InsertInto(Columns)
  }

  /** `JSON.stringify(v)` for a field stored as JSON: `None` when it throws, which makes `saveLog` reject. */
  function JsonField(v: Value, json: Stringify): Option<Value>
  {
    if !Truthy(v) then Some(Null)
    else match json(v)
      case Some(t) => Some(Str(t))
      case None => None
  }

  function BodyField(body: Value, json: Stringify): Value
  {
    match StringifyBody(body, json)
    case Some(t) => Str(t)
    case None => Null
  }

  /** The parameter row of `saveLog`'s INSERT, or `None` when serialising the query, the request
      headers or the response headers throws (`saveLog` then rejects). `generatedId` is what
      `generateRequestId()` returns; it is used only when the record has no requestId at all. */
  function SaveLogParams(d: LogData, generatedId: string, json: Stringify): (r: Option<seq<Value>>)
    ensures r.Some? <==>
      JsonField(d.requestQuery, json).Some? && JsonField(d.requestHeaders, json).Some? &&
      JsonField(d.responseHeaders, json).Some?
  {
    var id := if d.requestId.Undefined? then Str(generatedId) else d.requestId;
    var query := JsonField(d.requestQuery, json);
    var headers := JsonField(d.requestHeaders, json);
    var responseHeaders := JsonField(d.responseHeaders, json);
    if query.None? || headers.None? || responseHeaders.None? then None
    else Some([
      Or(id, Str("")),
      Or(d.requestMethod, Str("")),
      Or(d.requestUrl, Str("")),
      Or(d.requestPath, Str("")),
      query.value,
      headers.value,
      BodyField(d.requestBody, json),
      Or(d.responseStatus, Null),
      responseHeaders.value,
      BodyField(d.responseBody, json),
      Or(d.duration, Num(0)),
      if d.success != Undefined then (if Truthy(d.success) then Num(1) else Num(0)) else Num(0),
      Or(d.errorMessage, Null),
      Or(d.ipAddress, Str("")),
      Or(d.userAgent, Str(""))])
  }

  /** The identity and request-line texts of the row: a present (truthy) field as given, a missing
      or falsy one as ''; the generated id only when the record has no requestId at all. */
  lemma SaveLogTexts(d: LogData, generatedId: string, json: Stringify)
    requires SaveLogParams(d, generatedId, json).Some?
    ensures var row := SaveLogParams(d, generatedId, json).value;
      && |row| == 15
      && (d.requestId.Undefined? ==> row[0] == (if generatedId != "" then Str(generatedId) else Str("")))
      && (!d.requestId.Undefined? ==> row[0] == (if Truthy(d.requestId) then d.requestId else Str("")))
      && (Truthy(d.requestMethod) ==> row[1] == d.requestMethod)
      && (!Truthy(d.requestMethod) ==> row[1] == Str(""))
      && (Truthy(d.requestUrl) ==> row[2] == d.requestUrl)
      && (!Truthy(d.requestUrl) ==> row[2] == Str(""))
      && (Truthy(d.requestPath) ==> row[3] == d.requestPath)
      && (!Truthy(d.requestPath) ==> row[3] == Str(""))
  {
    SaveLogIdCell(d, generatedId, json);
    SaveLogMethodCell(d, generatedId, json);
    SaveLogLocationCells(d, generatedId, json);
  }

  lemma SaveLogIdCell(d: LogData, generatedId: string, json: Stringify)
    requires SaveLogParams(d, generatedId, json).Some?
    ensures var row := SaveLogParams(d, generatedId, json).value;
      && |row| == 15
      && (d.requestId.Undefined? ==> row[0] == (if generatedId != "" then Str(generatedId) else Str("")))
      && (!d.requestId.Undefined? ==> row[0] == (if Truthy(d.requestId) then d.requestId else Str("")))
  {
  }

  lemma SaveLogMethodCell(d: LogData, generatedId: string, json: Stringify)
    requires SaveLogParams(d, generatedId, json).Some?
    ensures var row := SaveLogParams(d, generatedId, json).value;
      && |row| == 15
      && (Truthy(d.requestMethod) ==> row[1] == d.requestMethod)
      && (!Truthy(d.requestMethod) ==> row[1] == Str(""))
  {
  }

  lemma SaveLogLocationCells(d: LogData, generatedId: string, json: Stringify)
    requires SaveLogParams(d, generatedId, json).Some?
    ensures var row := SaveLogParams(d, generatedId, json).value;
      && |row| == 15
      && (Truthy(d.requestUrl) ==> row[2] == d.requestUrl)
      && (!Truthy(d.requestUrl) ==> row[2] == Str(""))
      && (Truthy(d.requestPath) ==> row[3] == d.requestPath)
      && (!Truthy(d.requestPath) ==> row[3] == Str(""))
  {
  }

  /** The client texts of the row: the IP address and the user agent as given when truthy, '' otherwise. */
  lemma SaveLogClient(d: LogData, generatedId: string, json: Stringify)
    requires SaveLogParams(d, generatedId, json).Some?
    ensures var row := SaveLogParams(d, generatedId, json).value;
      && |row| == 15
      && (Truthy(d.ipAddress) ==> row[13] == d.ipAddress)
      && (!Truthy(d.ipAddress) ==> row[13] == Str(""))
      && (Truthy(d.userAgent) ==> row[14] == d.userAgent)
      && (!Truthy(d.userAgent) ==> row[14] == Str(""))
  {
  }

  /** The serialised fields of the row: the query and both header maps are null exactly when absent
      (falsy), the bodies exactly when null or undefined, and a present body is stored as
      `stringifyBody` gives it. */
  lemma SaveLogSerialised(d: LogData, generatedId: string, json: Stringify)
    requires SaveLogParams(d, generatedId, json).Some?
    ensures var row := SaveLogParams(d, generatedId, json).value;
      && |row| == 15
      && (row[4] == Null <==> !Truthy(d.requestQuery))
      && (row[5] == Null <==> !Truthy(d.requestHeaders))
      && (row[8] == Null <==> !Truthy(d.responseHeaders))
      && (row[6] == Null <==> d.requestBody.Undefined? || d.requestBody.Null?)
      && (row[9] == Null <==> d.responseBody.Undefined? || d.responseBody.Null?)
      && (row[6] != Null ==> row[6] == Str(StringifyBody(d.requestBody, json).value))
      && (row[9] != Null ==> row[9] == Str(StringifyBody(d.responseBody, json).value))
  {
    SaveLogMapCells(d, generatedId, json);
    SaveLogRequestBodyCell(d, generatedId, json);
    SaveLogResponseBodyCell(d, generatedId, json);
  }

  lemma SaveLogMapCells(d: LogData, generatedId: string, json: Stringify)
    requires SaveLogParams(d, generatedId, json).Some?
    ensures var row := SaveLogParams(d, generatedId, json).value;
      && |row| == 15
      && (row[4] == Null <==> !Truthy(d.requestQuery))
      && (row[5] == Null <==> !Truthy(d.requestHeaders))
      && (row[8] == Null <==> !Truthy(d.responseHeaders))
  {
    JsonFieldNull(d.requestQuery, json);
    JsonFieldNull(d.requestHeaders, json);
    JsonFieldNull(d.responseHeaders, json);
  }

  /** A serialised map is null exactly when the field is falsy. */
  lemma JsonFieldNull(v: Value, json: Stringify)
    requires JsonField(v, json).Some?
    ensures JsonField(v, json).value == Null <==> !Truthy(v)
  {
  }

  lemma SaveLogRequestBodyCell(d: LogData, generatedId: string, json: Stringify)
    requires SaveLogParams(d, generatedId, json).Some?
    ensures var row := SaveLogParams(d, generatedId, json).value;
      && |row| == 15
      && (row[6] == Null <==> d.requestBody.Undefined? || d.requestBody.Null?)
      && (row[6] != Null ==> row[6] == Str(StringifyBody(d.requestBody, json).value))
  {
  }

  lemma SaveLogResponseBodyCell(d: LogData, generatedId: string, json: Stringify)
    requires SaveLogParams(d, generatedId, json).Some?
    ensures var row := SaveLogParams(d, generatedId, json).value;
      && |row| == 15
      && (row[9] == Null <==> d.responseBody.Undefined? || d.responseBody.Null?)
      && (row[9] != Null ==> row[9] == Str(StringifyBody(d.responseBody, json).value))
  {
  }

  /** The outcome fields of the row: a falsy status is stored as null and a falsy duration as 0,
      success as 1 exactly when it is truthy and 0 otherwise (also when absent), a falsy error
      message as null. */
  lemma SaveLogOutcome(d: LogData, generatedId: string, json: Stringify)
    requires SaveLogParams(d, generatedId, json).Some?
    ensures var row := SaveLogParams(d, generatedId, json).value;
      && |row| == 15
      && (Truthy(d.responseStatus) ==> row[7] == d.responseStatus)
      && (!Truthy(d.responseStatus) ==> row[7] == Null)
      && (Truthy(d.duration) ==> row[10] == d.duration)
      && (!Truthy(d.duration) ==> row[10] == Num(0))
      && (row[11] == Num(1) <==> Truthy(d.success))
      && (row[11] == Num(0) <==> !Truthy(d.success))
      && (Truthy(d.errorMessage) ==> row[12] == d.errorMessage)
      && (!Truthy(d.errorMessage) ==> row[12] == Null)
  {
    SaveLogStatusCells(d, generatedId, json);
    SaveLogResultCells(d, generatedId, json);
  }

  lemma SaveLogStatusCells(d: LogData, generatedId: string, json: Stringify)
    requires SaveLogParams(d, generatedId, json).Some?
    ensures var row := SaveLogParams(d, generatedId, json).value;
      && |row| == 15
      && (Truthy(d.responseStatus) ==> row[7] == d.responseStatus)
      && (!Truthy(d.responseStatus) ==> row[7] == Null)
      && (Truthy(d.duration) ==> row[10] == d.duration)
      && (!Truthy(d.duration) ==> row[10] == Num(0))
  {
  }

  lemma SaveLogResultCells(d: LogData, generatedId: string, json: Stringify)
    requires SaveLogParams(d, generatedId, json).Some?
    ensures var row := SaveLogParams(d, generatedId, json).value;
      && |row| == 15
      && (row[11] == Num(1) <==> Truthy(d.success))
      && (row[11] == Num(0) <==> !Truthy(d.success))
      && (Truthy(d.errorMessage) ==> row[12] == d.errorMessage)
      && (!Truthy(d.errorMessage) ==> row[12] == Null)
  {
  }

  lemma {:induction false} PlaceholderListCount(n: nat)
    ensures Placeholders(PlaceholderList(n)) == n
  {
    if n == 1 {
      PlaceholderCountOne();
    } else if n > 1 {
      PlaceholderListCount(n - 1);
      assert NoPlaceholder(", ");
      NoPlaceholderCount(", ");
      PlaceholderCountOne();
      PlaceholdersAppend(", ", "?");
      PlaceholdersAppend(PlaceholderList(n - 1), ", ?");
    }
  }

  lemma {:induction false} JoinNoPlaceholder(parts: seq<string>, sep: char)
    requires sep != '?'
    requires forall i :: 0 <= i < |parts| ==> NoPlaceholder(parts[i])
    ensures NoPlaceholder(Join(parts, sep))
  {
    if |parts| > 1 {
      JoinNoPlaceholder(parts[1..], sep);
    }
  }

  lemma ColumnsHaveNoPlaceholder()
    ensures forall i :: 0 <= i < |Columns| ==> NoPlaceholder(Columns[i])
  {
    RequestColumnsHaveNoPlaceholder();
    ResponseColumnsHaveNoPlaceholder();
  }

  lemma RequestColumnsHaveNoPlaceholder()
    ensures forall i :: 0 <= i < 7 ==> NoPlaceholder(Columns[i])
  {
    assert NoPlaceholder(Columns[0]) && NoPlaceholder(Columns[1]) && NoPlaceholder(Columns[2]);
    assert NoPlaceholder(Columns[3]) && NoPlaceholder(Columns[4]) && NoPlaceholder(Columns[5]);
    assert NoPlaceholder(Columns[6]);
  }

  lemma ResponseColumnsHaveNoPlaceholder()
    ensures forall i :: 7 <= i < 15 ==> NoPlaceholder(Columns[i])
  {
    assert NoPlaceholder(Columns[7]) && NoPlaceholder(Columns[8]) && NoPlaceholder(Columns[9]);
    assert NoPlaceholder(Columns[10]) && NoPlaceholder(Columns[11]) && NoPlaceholder(Columns[12]);
    assert NoPlaceholder(Columns[13]) && NoPlaceholder(Columns[14]);
  }

  /** An INSERT over placeholder-free column names has one placeholder per column. */
  lemma InsertIntoPlaceholders(columns: seq<string>)
    requires forall i :: 0 <= i < |columns| ==> NoPlaceholder(columns[i])
    ensures Placeholders(InsertInto(columns)) == |columns|
  {
    var head, cols, mid, holes := "INSERT INTO api_logs (", Join(columns, ','), ") VALUES (", PlaceholderList(|columns|);
    JoinNoPlaceholder(columns, ',');
    assert NoPlaceholder(head);
    assert NoPlaceholder(mid);
    assert NoPlaceholder(")");
    NoPlaceholderCount(head);
    NoPlaceholderCount(cols);
    NoPlaceholderCount(mid);
    NoPlaceholderCount(")");
    PlaceholderListCount(|columns|);
    PlaceholdersAppend(head, cols);
    PlaceholdersAppend(head + cols, mid);
    PlaceholdersAppend(head + cols + mid, holes);
    PlaceholdersAppend(head + cols + mid + holes, ")");
  }

  /** The INSERT binds exactly the row `saveLog` builds: one placeholder per parameter. */
  lemma InsertBindsRow(d: LogData, generatedId: string, json: Stringify)
    requires SaveLogParams(d, generatedId, json).Some?
    ensures Placeholders(InsertSql()) == |SaveLogParams(d, generatedId, json).value|
  {
    ColumnsHaveNoPlaceholder();
    InsertIntoPlaceholders(Columns);
    SaveLogTexts(d, generatedId, json);
  }

  /** A record that carries a non-empty request id is stored under that id; a record without one is
      stored under a generated id, which is never empty. */
  lemma StoredRequestId(d: LogData, nowMs: nat, suffix: string, json: Stringify)
    requires SaveLogParams(d, GenerateRequestId(nowMs, suffix), json).Some?
    ensures d.requestId.Str? && d.requestId.s != "" ==>
      SaveLogParams(d, GenerateRequestId(nowMs, suffix), json).value[0] == d.requestId
    ensures d.requestId.Undefined? ==>
      SaveLogParams(d, GenerateRequestId(nowMs, suffix), json).value[0] == Str(GenerateRequestId(nowMs, suffix))
  {
  }
}
