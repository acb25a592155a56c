/** The admin boundary of `src/routes/adminRoutes.js`: the Basic authentication check in front of
    every admin route, how the `/logs`, `/stats` and `/stats/top-paths` routes turn the query string
    into the log store's parameters, and the `/overview` summary of today. Base64 decoding is a
    function parameter; the environment's credentials are inputs. */
module AdminRoutes {
  import opened Js
  import opened LogSql
  import opened Http
  import opened LogQuery
  import opened LogStats

  // ---------------------------------------------------------------------------
  // basicAuth

  const BasicPrefix := "Basic "
  const Challenge := "Basic realm=\"Admin Area\""
  /** "authentication required" */
  const AuthRequired := "需要认证"
  /** "authentication failed" */
  const AuthFailed := "认证失败"
  const DefaultUsername := "admin"
  const DefaultPassword := "admin123"

  datatype AuthDecision = Granted | Denied(reason: string)

  predicate StartsWith(s: string, prefix: string)
  {
    |prefix| <= |s| && s[..|prefix|] == prefix
  }

  /** `process.env.ADMIN_USERNAME || 'admin'` */
  function ValidUsername(env: Option<string>): (u: string)
    ensures env.None? || env.value == "" ==> u == DefaultUsername
    ensures env.Some? && env.value != "" ==> u == env.value
  {
    if env.Some? && env.value != "" then env.value else DefaultUsername
  }

  /** `process.env.ADMIN_PASSWORD || 'admin123'` */
  function ValidPassword(env: Option<string>): (p: string)
    ensures env.None? || env.value == "" ==> p == DefaultPassword
    ensures env.Some? && env.value != "" ==> p == env.value
  {
    if env.Some? && env.value != "" then env.value else DefaultPassword
  }

  /** `authHeader.split(' ')[1]`: the text between the first and the second space. */
  function Token(header: string): (t: string)
    requires StartsWith(header, BasicPrefix)
    ensures ' ' !in t
  {
    var rest := header[|BasicPrefix|..];
    assert header == "Basic" + [' '] + rest by {
      assert header[..|BasicPrefix|] == BasicPrefix;
    }
    SplitAtFirst("Basic", rest, ' ');
    Split(header, ' ')[1]
  }

  /** `const [username, password] = credentials.split(':')` and the comparison: only the first two
      pieces count, and a missing password is undefined. */
  predicate CredentialsAccepted(credentials: string, validUsername: string, validPassword: string)
  {
    var parts := Split(credentials, ':');
    var username := Str(parts[0]);
    var password := if |parts| >= 2 then Str(parts[1]) else Undefined;
    username == Str(validUsername) && password == Str(validPassword)
  }

  /** The decoded token checked against the configured user name and password. */
  predicate CredentialsMatch(header: string, decode: string -> string, envUser: Option<string>, envPass: Option<string>)
    requires StartsWith(header, BasicPrefix)
  {
    CredentialsAccepted(decode(Token(header)), ValidUsername(envUser), ValidPassword(envPass))
  }

  /** `basicAuth`'s verdict: no header or one that is not Basic asks for authentication, wrong
      credentials are refused, and the configured pair is let through. */
  function Authorize(header: Option<string>, decode: string -> string, envUser: Option<string>, envPass: Option<string>): (d: AuthDecision)
    ensures header.None? || !StartsWith(header.value, BasicPrefix) ==> d == Denied(AuthRequired)
    ensures header.Some? && StartsWith(header.value, BasicPrefix) ==> d.Granted? || d == Denied(AuthFailed)
  {
    if header.None? || !StartsWith(header.value, BasicPrefix) then Denied(AuthRequired)
    else if CredentialsMatch(header.value, decode, envUser, envPass) then Granted
    else Denied(AuthFailed)
  }

  /** The middleware: on refusal it sets the challenge header and answers 401 with the reason, and
      the route does not run; on success it leaves the response alone. */
  method BasicAuth(trace: Trace, header: Option<string>, decode: string -> string, envUser: Option<string>, envPass: Option<string>)
    returns (granted: bool)
    modifies trace
    ensures granted <==> Authorize(header, decode, envUser, envPass).Granted?
    ensures granted ==> trace.events == old(trace.events)
    ensures !granted ==> (trace.events == old(trace.events) +
      [HeaderSet("WWW-Authenticate", Str(Challenge)),
       JsonSent(401, Obj([("error", Str(Authorize(header, decode, envUser, envPass).reason))]))])
  {
    if header.None? || !StartsWith(header.value, BasicPrefix) {
      trace.SetHeader("WWW-Authenticate", Str(Challenge));
      trace.Json(401, Obj([("error", Str(AuthRequired))]));
      return false;
    }
    if CredentialsMatch(header.value, decode, envUser, envPass) {
      granted := true;
    } else {
      trace.SetHeader("WWW-Authenticate", Str(Challenge));
      trace.Json(401, Obj([("error", Str(AuthFailed))]));
      granted := false;
    }
  }

  /** Only the first two ':'-separated pieces are compared, so a configured password that contains
      ':' can never be matched (and neither can such a user name). */
  lemma ColonNeverMatches(header: Option<string>, decode: string -> string, envUser: Option<string>, envPass: Option<string>)
    requires ':' in ValidPassword(envPass) || ':' in ValidUsername(envUser)
    ensures Authorize(header, decode, envUser, envPass) != Granted
  {
    if header.Some? && StartsWith(header.value, BasicPrefix) {
      var parts := Split(decode(Token(header.value)), ':');
      assert ':' !in parts[0];
      if |parts| >= 2 {
        assert ':' !in parts[1];
      }
    }
  }

  /** With colon-free configured credentials, access is granted exactly for a Basic header whose
      decoded token is `user:password`, possibly followed by ':' and anything at all. */
  lemma GrantedExactly(header: string, decode: string -> string, envUser: Option<string>, envPass: Option<string>)
    requires StartsWith(header, BasicPrefix)
    requires ':' !in ValidUsername(envUser) && ':' !in ValidPassword(envPass)
    ensures var u := ValidUsername(envUser);
      var p := ValidPassword(envPass);
      var credentials := decode(Token(header));
      Authorize(Some(header), decode, envUser, envPass) == Granted <==>
        credentials == u + [':'] + p || StartsWith(credentials, u + [':'] + p + [':'])
  {
    AcceptedExactly(decode(Token(header)), ValidUsername(envUser), ValidPassword(envPass));
  }

  lemma AcceptedExactly(credentials: string, u: string, p: string)
    requires ':' !in u && ':' !in p
    ensures CredentialsAccepted(credentials, u, p) <==>
      credentials == u + [':'] + p || StartsWith(credentials, u + [':'] + p + [':'])
  {
    if credentials == u + [':'] + p {
      SplitPair(u, p, [], false, ':');
    } else if StartsWith(credentials, u + [':'] + p + [':']) {
      var rest := credentials[|u + [':'] + p + [':']|..];
      assert credentials == u + [':'] + p + [':'] + rest by {
        assert credentials == credentials[..|u + [':'] + p + [':']|] + rest;
      }
      SplitPair(u, p, rest, true, ':');
    }
    if CredentialsAccepted(credentials, u, p) {
      JoinFirstTwo(Split(credentials, ':'), ':');
    }
  }

  /** Splitting `u:p`, or `u:p:rest`, gives `u` and `p` as its first two pieces. */
  lemma SplitPair(u: string, p: string, rest: string, more: bool, sep: char)
    requires sep !in u && sep !in p
    ensures var s := if more then u + [sep] + p + [sep] + rest else u + [sep] + p;
      |Split(s, sep)| >= 2 && Split(s, sep)[0] == u && Split(s, sep)[1] == p
  {
    if more {
      assert u + [sep] + p + [sep] + rest == u + [sep] + (p + [sep] + rest);
      SplitAtFirst(u, p + [sep] + rest, sep);
      SplitAtFirst(p, rest, sep);
    } else {
      SplitAtFirst(u, p, sep);
      assert IndexOf(p, sep) == -1;
    }
  }

  /** A joined list of at least two pieces starts with the first two and the separator between
      them, followed either by nothing or by another separator. */
  lemma JoinFirstTwo(parts: seq<string>, sep: char)
    requires |parts| >= 2
    ensures var a := parts[0] + [sep] + parts[1];
      Join(parts, sep) == a || StartsWith(Join(parts, sep), a + [sep])
  {
    var a := parts[0] + [sep] + parts[1];
    assert Join(parts, sep) == parts[0] + [sep] + Join(parts[1..], sep);
    if |parts| > 2 {
      var rest := Join(parts[2..], sep);
      assert parts[1..][1..] == parts[2..];
      assert Join(parts[1..], sep) == parts[1] + [sep] + rest;
      assert Join(parts, sep) == (a + [sep]) + rest;
    }
  }

  // ---------------------------------------------------------------------------
  // Query-string normalisation

  /** A query-string field as a text filter: its string, or nothing. */
  function QueryText(query: Value, key: string): Option<string>
  {
    var v := Get(query, key);
    if v.Str? then Some(v.s) else None
  }

  /** The parameters `/logs` passes to `getLogs`: page and size parsed with their defaults for
      NaN and 0, the text filters as given, the status parsed only when given, and the success flag
      kept only when present. */
  function LogsParamsOf(query: Value): (p: LogsParams)
    ensures p.page.Num? && p.page.n != 0 && p.pageSize.Num? && p.pageSize.n != 0
    ensures ParseInt(Get(query, "page")).NaN? || ParseInt(Get(query, "page")) == Num(0) ==> p.page == Num(1)
    ensures ParseInt(Get(query, "page")).Num? && ParseInt(Get(query, "page")).n != 0 ==>
      p.page == ParseInt(Get(query, "page"))
    ensures ParseInt(Get(query, "pageSize")).NaN? || ParseInt(Get(query, "pageSize")) == Num(0) ==> p.pageSize == Num(20)
    ensures ParseInt(Get(query, "pageSize")).Num? && ParseInt(Get(query, "pageSize")).n != 0 ==>
      p.pageSize == ParseInt(Get(query, "pageSize"))
    ensures p.requestMethod == QueryText(query, "requestMethod") && p.requestPath == QueryText(query, "requestPath")
    ensures p.startDate == QueryText(query, "startDate") && p.endDate == QueryText(query, "endDate")
    ensures Truthy(Get(query, "responseStatus")) ==> p.responseStatus == ParseInt(Get(query, "responseStatus"))
    ensures !Truthy(Get(query, "responseStatus")) ==> p.responseStatus == Undefined
    ensures Get(query, "success") == Undefined ==> p.success == Undefined
    ensures Get(query, "success") != Undefined ==> (p.success == Bool(true) <==> Get(query, "success") == Str("true"))
  {
    var status := Get(query, "responseStatus");
    var success := Get(query, "success");
    LogsParams(
      page := Num(ParsedOr(Get(query, "page"), 1)),
      pageSize := Num(ParsedOr(Get(query, "pageSize"), 20)),
      requestMethod := QueryText(query, "requestMethod"),
      requestPath := QueryText(query, "requestPath"),
      responseStatus := if Truthy(status) then ParseInt(status) else Undefined,
      startDate := QueryText(query, "startDate"),
      endDate := QueryText(query, "endDate"),
      success := if success != Undefined then Bool(success == Str("true")) else Undefined)
  }

  /** The route's page defaults agree with the store's own clamping: parsing twice changes
      nothing. */
  lemma LogsRoutePaging(query: Value)
    ensures PageNumber(LogsParamsOf(query).page) == PageNumber(Get(query, "page"))
    ensures PageSize(LogsParamsOf(query).pageSize) == PageSize(Get(query, "pageSize"))
  {
    PageReparsed(Get(query, "page"));
    PageSizeReparsed(Get(query, "pageSize"));
  }

  lemma PageReparsed(v: Value)
    ensures PageNumber(Num(ParsedOr(v, 1))) == PageNumber(v)
  {
    ParseIntNum(ParsedOr(v, 1));
  }

  lemma PageSizeReparsed(v: Value)
    ensures PageSize(Num(ParsedOr(v, 20))) == PageSize(v)
  {
    ParseIntNum(ParsedOr(v, 20));
  }

  /** The listing's success filter: none when the flag is absent, the successes for 'true', and
      the failures for any other text, 'false' included. */
  lemma LogsRouteSuccess(query: Value)
    ensures Get(query, "success") == Undefined ==> SuccessCond(LogsParamsOf(query)) == []
    ensures Get(query, "success") == Str("true") ==>
      SuccessCond(LogsParamsOf(query)) == [Cond(SuccessFlag, Eq, Num(1))]
    ensures Get(query, "success") != Undefined && Get(query, "success") != Str("true") ==>
      SuccessCond(LogsParamsOf(query)) == [Cond(SuccessFlag, Eq, Num(0))]
  {
  }

  /** The listing's status filter: none for an empty or absent status, and otherwise the parsed
      value, even when parsing gives NaN. */
  lemma LogsRouteStatus(query: Value)
    ensures !Truthy(Get(query, "responseStatus")) ==> StatusCond(LogsParamsOf(query)) == []
    ensures Truthy(Get(query, "responseStatus")) ==>
      StatusCond(LogsParamsOf(query)) == [Cond(ResponseStatus, Eq, ParseInt(Get(query, "responseStatus")))]
  {
    var status := Get(query, "responseStatus");
    var p := LogsParamsOf(query);
    if Truthy(status) {
      assert p.responseStatus == ParseInt(status);
      assert GivenValue(p.responseStatus);
      if ParseInt(status).Num? {
        ParseIntNum(ParseInt(status).n);
      } else {
        ParseIntNaN();
      }
    } else {
      assert p.responseStatus == Undefined;
    }
  }

  /** The parameters `/stats` passes to `getStats`: the four fields as given. */
  function StatsParamsOf(query: Value): StatsParams
  {
    StatsParams(Get(query, "startDate"), Get(query, "endDate"), Get(query, "requestPath"), Get(query, "requestMethod"))
  }

  /** `/stats` filters by exactly the non-empty fields of the query string, untrimmed, and binds
      them in the order start date, end date, path pattern, method. */
  lemma StatsRouteFilters(query: Value)
    ensures |StatsConditions(StatsParamsOf(query))| ==
      (if Truthy(Get(query, "startDate")) then 1 else 0) + (if Truthy(Get(query, "endDate")) then 1 else 0) +
      (if Truthy(Get(query, "requestPath")) then 1 else 0) + (if Truthy(Get(query, "requestMethod")) then 1 else 0)
    ensures (Get(query, "startDate") == Str("") && Get(query, "endDate") == Undefined &&
             Get(query, "requestPath") == Undefined && Get(query, "requestMethod") == Undefined) ==>
      StatsConditions(StatsParamsOf(query)) == []
  {
  }

  /** `parseInt(req.query.limit) || 10` */
  function TopPathsLimit(query: Value): (limit: Value)
    ensures limit.Num? && limit.n != 0
    ensures ParseInt(Get(query, "limit")).NaN? || ParseInt(Get(query, "limit")) == Num(0) ==> limit == Num(10)
    ensures ParseInt(Get(query, "limit")).Num? && ParseInt(Get(query, "limit")).n != 0 ==> limit == ParseInt(Get(query, "limit"))
  {
    Num(ParsedOr(Get(query, "limit"), 10))
  }

  /** The top-paths statement the route runs always binds a non-zero integer limit: the route's
      default replaces NaN and 0, so the store's own default for undefined is never needed. */
  lemma TopPathsRouteLimit(query: Value)
    ensures var q := TopPathsQuery(Get(query, "startDate"), Get(query, "endDate"), TopPathsLimit(query));
      |q.params| == 3 && q.params[2] == TopPathsLimit(query) && q.params[2].Num? && q.params[2].n != 0
  {
    ParseIntNum(TopPathsLimit(query).n);
  }

  // ---------------------------------------------------------------------------
  // /overview

  /** `new Date().toISOString().split('T')[0]`: the date part of an ISO timestamp, that is the whole
      text before its first `T` (or all of it when there is none). */
  function Today(isoNow: string): (day: string)
    ensures 'T' !in day && StartsWith(isoNow, day)
    ensures |day| == |isoNow| || isoNow[|day|] == 'T'
  {
    var parts := Split(isoNow, 'T');
    JoinHead(parts, 'T');
    parts[0]
  }

  lemma JoinHead(parts: seq<string>, sep: char)
    requires |parts| >= 1
    ensures StartsWith(Join(parts, sep), parts[0])
    ensures |Join(parts, sep)| == |parts[0]| || Join(parts, sep)[|parts[0]|] == sep
  {
    if |parts| > 1 {
      assert Join(parts, sep) == parts[0] + ([sep] + Join(parts[1..], sep));
    }
  }

  /** The summary of today asks `getStats` for the whole day, from midnight to one second before
      the next. */
  function OverviewParams(isoNow: string): StatsParams
  {
    StatsParams(Str(Today(isoNow) + " 00:00:00"), Str(Today(isoNow) + " 23:59:59"), Undefined, Undefined)
  }

  /** ... which filters by creation time only, with both bounds of that day. */
  lemma OverviewFiltersToday(isoNow: string)
    ensures StatsConditions(OverviewParams(isoNow)) ==
      [Cond(CreatedAt, AtLeast, Str(Today(isoNow) + " 00:00:00")),
       Cond(CreatedAt, AtMost, Str(Today(isoNow) + " 23:59:59"))]
  {
    var p := OverviewParams(isoNow);
    assert |p.startDate.s| > 0 && |p.endDate.s| > 0;
  }

  /** One row of `getStats`, with the average already rounded. */
  datatype DayStats = DayStats(totalRequests: int, successRequests: int, failedRequests: int, avgDuration: int)

  /** The success rate: 0 when there were no requests, otherwise the percentage
      success / total * 100 (printed with two decimals). */
  datatype Rate = NoRequests | Percentage(success: int, total: int)

  datatype Overview = Overview(
    today: string,
    totalRequests: int,
    successRequests: int,
    failedRequests: int,
    avgDuration: int,
    successRate: Rate)

  /** The summary from the day's rows: the first row, or all zeros when there is none. */
  function OverviewOf(today: string, rows: seq<DayStats>): (o: Overview)
    ensures o.today == today
    ensures rows == [] ==> o == Overview(today, 0, 0, 0, 0, NoRequests)
    ensures rows != [] ==>
      && o.totalRequests == rows[0].totalRequests && o.successRequests == rows[0].successRequests
      && o.failedRequests == rows[0].failedRequests && o.avgDuration == rows[0].avgDuration
    ensures o.successRate == NoRequests <==> o.totalRequests <= 0
    ensures o.successRate.Percentage? ==> o.successRate == Percentage(o.successRequests, o.totalRequests)
  {
    var s := if rows != [] then rows[0] else DayStats(0, 0, 0, 0);
    Overview(today, s.totalRequests, s.successRequests, s.failedRequests, s.avgDuration,
      if s.totalRequests > 0 then Percentage(s.successRequests, s.totalRequests) else NoRequests)
  }
}
