/** The aggregate statements of the log store: the per-day summary (`getStats`), whose WHERE clause
    grows with one condition per truthy filter, and the three fixed-shape statements (status codes,
    busiest paths, requests per hour) that bind a date range with defaults. Statement texts are
    written with their whitespace collapsed to single spaces. */
module LogStats {
  import opened Js
  import opened LogSql

  // ---------------------------------------------------------------------------
  // getStats

  /** The fields `getStats` reads, as whatever values the caller passed. */
  datatype StatsParams = StatsParams(startDate: Value, endDate: Value, requestPath: Value, requestMethod: Value)

  /** Everything before `WHERE 1=1`: the day and its total, the successes, the failures, and the
      average duration. */
  const StatsSelect := StatsDayColumns + StatsSuccessColumn + StatsFailedColumn + StatsAverageFrom

  const StatsDayColumns := "SELECT DATE(created_at) as date, " + "COUNT(*) as total_requests, "
  const StatsSuccessColumn := "SUM(CASE WHEN success = 1 " + "THEN 1 ELSE 0 END) " + "as success_requests, "
  const StatsFailedColumn := "SUM(CASE WHEN success = 0 " + "THEN 1 ELSE 0 END) " + "as failed_requests, "
  const StatsAverageFrom := "AVG(duration) as avg_duration " + "FROM api_logs "

  /** Everything after the last condition. */
  const StatsTail := " GROUP BY DATE(created_at)" + " ORDER BY date DESC"

  /** The conditions of the summary, one per truthy field, in the order start date, end date, path,
      method. */
  function StatsConditions(p: StatsParams): seq<Cond>
  {
    When(Truthy(p.startDate), Cond(CreatedAt, AtLeast, p.startDate)) +
    When(Truthy(p.endDate), Cond(CreatedAt, AtMost, p.endDate)) +
    When(Truthy(p.requestPath), Cond(RequestPath, Like, Str(StatsPathPattern(p.requestPath)))) +
    When(Truthy(p.requestMethod), Cond(RequestMethod, Eq, p.requestMethod))
  }

  /** The path pattern `getStats` binds: the text as given, between two `%`, neither trimmed nor
      escaped. */
  function StatsPathPattern(path: Value): string
  {
    "%" + Show(path) + "%"
  }

  /** The path pattern with LIKE's special characters escaped. */
  function EscapedStatsPathPattern(path: Value): string
  {
    "%" + EscapeLike(Show(path)) + "%"
  }

  /** `getStats`: the text grows with `sql +=` and the parameters with `push`, one truthy filter at
      a time, and the grouping tail comes last. */
  method BuildStatsQuery(p: StatsParams) returns (query: Query)
    ensures query.sql == StatsSelect + WhereText(StatsConditions(p)) + StatsTail
    ensures query.params == Args(StatsConditions(p))
  {
    var sql := StatsSelect + WhereAll;
    var queryParams: seq<Value> := [];
    ghost var added: seq<Cond> := [];
    assert WhereText([]) == WhereAll;

    var c1 := Cond(CreatedAt, AtLeast, p.startDate);
    sql, queryParams := AddWhen(Truthy(p.startDate), sql, queryParams, StatsSelect, added, c1);
    added := added + When(Truthy(p.startDate), c1);

    var c2 := Cond(CreatedAt, AtMost, p.endDate);
    sql, queryParams := AddWhen(Truthy(p.endDate), sql, queryParams, StatsSelect, added, c2);
    added := added + When(Truthy(p.endDate), c2);

    var c3 := Cond(RequestPath, Like, Str(StatsPathPattern(p.requestPath)));
    sql, queryParams := AddWhen(Truthy(p.requestPath), sql, queryParams, StatsSelect, added, c3);
    added := added + When(Truthy(p.requestPath), c3);

    var c4 := Cond(RequestMethod, Eq, p.requestMethod);
    sql, queryParams := AddWhen(Truthy(p.requestMethod), sql, queryParams, StatsSelect, added, c4);
    added := added + When(Truthy(p.requestMethod), c4);

    assert added == [] + When(Truthy(p.startDate), c1) + When(Truthy(p.endDate), c2) +
      When(Truthy(p.requestPath), c3) + When(Truthy(p.requestMethod), c4);
    assert [] + When(Truthy(p.startDate), c1) == When(Truthy(p.startDate), c1);
    assert added == StatsConditions(p);
    sql := sql + StatsTail;
    query := Query(sql, queryParams);
  }

  /** The values the summary binds: the truthy fields themselves, untrimmed and in the order start,
      end, path, method, with the path wrapped in `%…%`. */
  lemma StatsParamsBound(p: StatsParams)
    ensures Args(StatsConditions(p)) ==
      (if Truthy(p.startDate) then [p.startDate] else []) +
      (if Truthy(p.endDate) then [p.endDate] else []) +
      (if Truthy(p.requestPath) then [Str(StatsPathPattern(p.requestPath))] else []) +
      (if Truthy(p.requestMethod) then [p.requestMethod] else [])
  {
    ArgsOfFour(Truthy(p.startDate), Truthy(p.endDate), Truthy(p.requestPath), Truthy(p.requestMethod),
      Cond(CreatedAt, AtLeast, p.startDate), Cond(CreatedAt, AtMost, p.endDate),
      Cond(RequestPath, Like, Str(StatsPathPattern(p.requestPath))), Cond(RequestMethod, Eq, p.requestMethod));
  }

  lemma ArgsOfFour(a: bool, b: bool, c: bool, d: bool, ca: Cond, cb: Cond, cc: Cond, cd: Cond)
    ensures Args(When(a, ca) + When(b, cb) + When(c, cc) + When(d, cd)) ==
      (if a then [ca.arg] else []) + (if b then [cb.arg] else []) + (if c then [cc.arg] else []) +
      (if d then [cd.arg] else [])
  {
    ArgsWhen(a, ca);
    ArgsWhen(b, cb);
    ArgsWhen(c, cc);
    ArgsWhen(d, cd);
    ArgsAppend(When(a, ca), When(b, cb));
    ArgsAppend(When(a, ca) + When(b, cb), When(c, cc));
    ArgsAppend(When(a, ca) + When(b, cb) + When(c, cc), When(d, cd));
  }

  /** As written, the summary's path filter `a_c` is its only condition and keeps a row whose path
      is `abc`, which does not contain `a_c`. */
  lemma StatsPathPatternOverMatches(row: LogRow)
    requires row.requestPath == Some("abc")
    ensures StatsConditions(StatsParams(Undefined, Undefined, Str("a_c"), Undefined)) ==
      [Cond(RequestPath, Like, Str("%a_c%"))]
    ensures AllHold(row, StatsConditions(StatsParams(Undefined, Undefined, Str("a_c"), Undefined)))
    ensures !IsSubstring("a_c", "abc")
  {
    var c := Cond(RequestPath, Like, Str(StatsPathPattern(Str("a_c"))));
    assert StatsPathPattern(Str("a_c")) == "%a_c%";
    assert StatsConditions(StatsParams(Undefined, Undefined, Str("a_c"), Undefined)) == [] + [] + [c] + [];
    UnderscoreMatchesAnyCharacter();
    assert Holds(row, c);
    PlainPathNotInRow();
  }

  /** With the wildcards escaped, the summary's path filter is exactly substring search for the text
      as given. */
  lemma EscapedStatsPathPatternIsSubstring(s: string, path: Value)
    ensures LikeMatch(s, EscapedStatsPathPattern(path)) <==> IsSubstring(Show(path), s)
  {
    LikeContainsEscaped(s, Show(path));
  }

  lemma ArgsWhen(present: bool, c: Cond)
    ensures Args(When(present, c)) == if present then [c.arg] else []
  {
  }

  lemma ArgsAppend(a: seq<Cond>, b: seq<Cond>)
    ensures Args(a + b) == Args(a) + Args(b)
  {
    var l, r := Args(a + b), Args(a) + Args(b);
    forall i | 0 <= i < |l| ensures l[i] == r[i] {
      if i >= |a| {
        assert (a + b)[i] == b[i - |a|];
      }
    }
  }

  lemma StatsSelectHasNoPlaceholder()
    ensures Placeholders(StatsSelect) == 0
  {
    StatsDayColumnsHaveNoPlaceholder();
    StatsSuccessColumnHasNoPlaceholder();
    StatsFailedColumnHasNoPlaceholder();
    StatsAverageFromHasNoPlaceholder();
    PlaceholderFreePrefix(StatsDayColumns, StatsSuccessColumn);
    PlaceholderFreePrefix(StatsDayColumns + StatsSuccessColumn, StatsFailedColumn);
    PlaceholderFreePrefix(StatsDayColumns + StatsSuccessColumn + StatsFailedColumn, StatsAverageFrom);
  }

  lemma StatsDayColumnsHaveNoPlaceholder()
    ensures Placeholders(StatsDayColumns) == 0
  {
    var a, b := "SELECT DATE(created_at) as date, ", "COUNT(*) as total_requests, ";
    assert NoPlaceholder(a);
    NoPlaceholderAppend(a, b);
    NoPlaceholderCount(StatsDayColumns);
  }

  lemma StatsSuccessColumnHasNoPlaceholder()
    ensures Placeholders(StatsSuccessColumn) == 0
  {
    var a, b, c := "SUM(CASE WHEN success = 1 ", "THEN 1 ELSE 0 END) ", "as success_requests, ";
    assert NoPlaceholder(a);
    NoPlaceholderAppend(a, b);
    NoPlaceholderAppend(a + b, c);
    NoPlaceholderCount(StatsSuccessColumn);
  }

  lemma StatsFailedColumnHasNoPlaceholder()
    ensures Placeholders(StatsFailedColumn) == 0
  {
    var a, b, c := "SUM(CASE WHEN success = 0 ", "THEN 1 ELSE 0 END) ", "as failed_requests, ";
    assert NoPlaceholder(a);
    NoPlaceholderAppend(a, b);
    NoPlaceholderAppend(a + b, c);
    NoPlaceholderCount(StatsFailedColumn);
  }

  lemma StatsAverageFromHasNoPlaceholder()
    ensures Placeholders(StatsAverageFrom) == 0
  {
    var a, b := "AVG(duration) as avg_duration ", "FROM api_logs ";
    assert NoPlaceholder(a);
    NoPlaceholderAppend(a, b);
    NoPlaceholderCount(StatsAverageFrom);
  }

  lemma StatsTailHasNoPlaceholder()
    ensures Placeholders(StatsTail) == 0
  {
    var g, o := " GROUP BY DATE(created_at)", " ORDER BY date DESC";
    assert NoPlaceholder(g);
    NoPlaceholderAppend(g, o);
    NoPlaceholderCount(StatsTail);
  }

  /** The summary binds one parameter per truthy filter and its text holds exactly that many `?`. */
  lemma StatsQueryBindsParams(p: StatsParams)
    ensures Placeholders(StatsSelect + WhereText(StatsConditions(p)) + StatsTail) == |Args(StatsConditions(p))|
    ensures |Args(StatsConditions(p))| ==
      (if Truthy(p.startDate) then 1 else 0) + (if Truthy(p.endDate) then 1 else 0) +
      (if Truthy(p.requestPath) then 1 else 0) + (if Truthy(p.requestMethod) then 1 else 0)
  {
    StatsSelectHasNoPlaceholder();
    StatsTailHasNoPlaceholder();
    StatementPlaceholders(StatsSelect, StatsConditions(p), StatsTail);
  }

  // ---------------------------------------------------------------------------
  // The fixed-shape statements

  const DefaultStart := "1970-01-01"
  const DefaultEnd := "2030-12-31"

  /** `startDate || '1970-01-01'` */
  function RangeStart(v: Value): (r: Value)
    ensures Truthy(v) ==> r == v
    ensures !Truthy(v) ==> r == Str(DefaultStart)
  {
    Or(v, Str(DefaultStart))
  }

  /** `endDate || '2030-12-31'` */
  function RangeEnd(v: Value): (r: Value)
    ensures Truthy(v) ==> r == v
    ensures !Truthy(v) ==> r == Str(DefaultEnd)
  {
    Or(v, Str(DefaultEnd))
  }

  /** The range condition every fixed-shape statement uses, with its two placeholders. */
  const RangeWhere := RangeFrom + "?" + RangeTo + "?"

  const RangeFrom := "created_at >= "
  const RangeTo := " AND created_at <= "

  lemma RangeWherePlaceholders()
    ensures Placeholders(RangeWhere) == 2
  {
    assert NoPlaceholder(RangeFrom) && NoPlaceholder(RangeTo);
    NoPlaceholderCount(RangeFrom);
    NoPlaceholderCount(RangeTo);
    PlaceholderCountOne();
    PlaceholdersAppend(RangeFrom, "?");
    PlaceholdersAppend(RangeFrom + "?", RangeTo);
    PlaceholdersAppend(RangeFrom + "?" + RangeTo, "?");
  }

  /** The status codes with their count, then the opening of the share each code has of the
      overall count. */
  const StatusCodeHead := StatusCodeColumns + StatusCodeShare

  const StatusCodeColumns := "SELECT response_status as status_code, " + "COUNT(*) as count, "
  const StatusCodeShare := "ROUND(COUNT(*) * 100.0 / " + "(SELECT COUNT(*) FROM api_logs WHERE "

  const StatusCodeMiddle := "), 2) as percentage " + "FROM api_logs WHERE "

  const StatusCodeTail := " GROUP BY response_status " + "ORDER BY count DESC"

  /** `getStatusCodeStats`: the range appears twice, once in the overall count the percentages
      divide by and once for the grouped rows, so the pair is bound twice. */
  function StatusCodeQuery(startDate: Value, endDate: Value): (q: Query)
    ensures |q.params| == 4 && q.params[0] == q.params[2] && q.params[1] == q.params[3]
    ensures q.params[0] == RangeStart(startDate) && q.params[1] == RangeEnd(endDate)
  {
    Query(StatusCodeHead + RangeWhere + StatusCodeMiddle + RangeWhere + StatusCodeTail,
      [RangeStart(startDate), RangeEnd(endDate), RangeStart(startDate), RangeEnd(endDate)])
  }

  /** Per path: its count, average duration, successes and success rate. */
  const TopPathsHead := TopPathsColumns + TopPathsSuccessCount + TopPathsSuccessRate + FromLogsWhere

  const TopPathsColumns := "SELECT request_path, " + "COUNT(*) as count, " + "AVG(duration) as avg_duration, "
  const TopPathsSuccessCount := "SUM(CASE WHEN success = 1 " + "THEN 1 ELSE 0 END) as success_count, "
  const TopPathsSuccessRate :=
    "ROUND(SUM(CASE WHEN success = 1 " + "THEN 1 ELSE 0 END) * 100.0 " + "/ COUNT(*), 2) as success_rate "
  const FromLogsWhere := "FROM api_logs WHERE "

  /** The grouping and ordering, then the limit's placeholder. */
  const TopPathsTail := TopPathsOrder + "?"

  const TopPathsOrder := " GROUP BY request_path " + "ORDER BY count DESC " + "LIMIT "

  const DefaultTopLimit := 10

  /** `limit = 10` in the destructuring, then `parseInt(limit)`: the default applies only to an
      undefined limit. */
  function TopLimit(limit: Value): (r: Value)
    ensures limit == Undefined ==> r == Num(DefaultTopLimit)
    ensures limit != Undefined ==> r == ParseInt(limit)
  {
    ParseIntNum(DefaultTopLimit);
    ParseInt(if limit == Undefined then Num(DefaultTopLimit) else limit)
  }

  /** `getTopApiPaths`: the range with its defaults, then the limit as the last parameter; the text
      holds one `?` per parameter. */
  function TopPathsQuery(startDate: Value, endDate: Value, limit: Value): (q: Query)
    ensures Placeholders(q.sql) == |q.params| == 3
    ensures Truthy(startDate) ==> q.params[0] == startDate
    ensures !Truthy(startDate) ==> q.params[0] == Str(DefaultStart)
    ensures Truthy(endDate) ==> q.params[1] == endDate
    ensures !Truthy(endDate) ==> q.params[1] == Str(DefaultEnd)
    ensures limit == Undefined ==> q.params[2] == Num(DefaultTopLimit)
    ensures limit != Undefined ==> q.params[2] == ParseInt(limit)
  {
    TopPathsStatementPlaceholders();
    Query(TopPathsHead + RangeWhere + TopPathsTail, [RangeStart(startDate), RangeEnd(endDate), TopLimit(limit)])
  }

  const HourlyHead := HourlyColumns + HourlyAverageFrom

  const HourlyColumns := "SELECT HOUR(created_at) as hour, " + "COUNT(*) as count, "
  const HourlyAverageFrom := "AVG(duration) as avg_duration " + "FROM api_logs WHERE "

  const HourlyTail := " GROUP BY HOUR(created_at) " + "ORDER BY hour"

  /** `getHourlyTrend`: the range with its defaults; the text holds one `?` per parameter. */
  function HourlyQuery(startDate: Value, endDate: Value): (q: Query)
    ensures Placeholders(q.sql) == |q.params| == 2
    ensures Truthy(startDate) ==> q.params[0] == startDate
    ensures !Truthy(startDate) ==> q.params[0] == Str(DefaultStart)
    ensures Truthy(endDate) ==> q.params[1] == endDate
    ensures !Truthy(endDate) ==> q.params[1] == Str(DefaultEnd)
  {
    HourlyStatementPlaceholders();
    Query(HourlyHead + RangeWhere + HourlyTail, [RangeStart(startDate), RangeEnd(endDate)])
  }

  /** With no range given, every fixed-shape statement covers 1970-01-01 to 2030-12-31, and the
      busiest-paths statement keeps ten paths. */
  lemma FixedStatementDefaults()
    ensures StatusCodeQuery(Undefined, Undefined).params ==
      [Str(DefaultStart), Str(DefaultEnd), Str(DefaultStart), Str(DefaultEnd)]
    ensures TopPathsQuery(Undefined, Undefined, Undefined).params ==
      [Str(DefaultStart), Str(DefaultEnd), Num(10)]
    ensures HourlyQuery(Undefined, Undefined).params == [Str(DefaultStart), Str(DefaultEnd)]
  {
  }

  lemma StatusCodeTextsHaveNoPlaceholder()
    ensures Placeholders(StatusCodeHead) == 0 && Placeholders(StatusCodeMiddle) == 0
    ensures Placeholders(StatusCodeTail) == 0
  {
    StatusCodeColumnsHaveNoPlaceholder();
    StatusCodeShareHasNoPlaceholder();
    PlaceholderFreePrefix(StatusCodeColumns, StatusCodeShare);
    StatusCodeEndsHaveNoPlaceholder();
  }

  lemma StatusCodeColumnsHaveNoPlaceholder()
    ensures Placeholders(StatusCodeColumns) == 0
  {
    var a, b := "SELECT response_status as status_code, ", "COUNT(*) as count, ";
    assert NoPlaceholder(a);
    NoPlaceholderAppend(a, b);
    NoPlaceholderCount(StatusCodeColumns);
  }

  lemma StatusCodeShareHasNoPlaceholder()
    ensures Placeholders(StatusCodeShare) == 0
  {
    var a, b := "ROUND(COUNT(*) * 100.0 / ", "(SELECT COUNT(*) FROM api_logs WHERE ";
    assert NoPlaceholder(a);
    NoPlaceholderAppend(a, b);
    NoPlaceholderCount(StatusCodeShare);
  }

  lemma StatusCodeEndsHaveNoPlaceholder()
    ensures Placeholders(StatusCodeMiddle) == 0 && Placeholders(StatusCodeTail) == 0
  {
    assert NoPlaceholder(StatusCodeMiddle);
    NoPlaceholderCount(StatusCodeMiddle);
    assert NoPlaceholder(StatusCodeTail);
    NoPlaceholderCount(StatusCodeTail);
  }

  /** Each fixed-shape statement holds exactly as many `?` as it binds parameters. */
  lemma StatusCodeBindsParams(startDate: Value, endDate: Value)
    ensures Placeholders(StatusCodeQuery(startDate, endDate).sql) == |StatusCodeQuery(startDate, endDate).params|
  {
    StatusCodeTextsHaveNoPlaceholder();
    RangeWherePlaceholders();
    var h, r, m, t := StatusCodeHead, RangeWhere, StatusCodeMiddle, StatusCodeTail;
    PlaceholdersAppend(h, r);
    PlaceholdersAppend(h + r, m);
    PlaceholdersAppend(h + r + m, r);
    PlaceholdersAppend(h + r + m + r, t);
  }

  lemma TopPathsTextsPlaceholders()
    ensures Placeholders(TopPathsHead) == 0 && Placeholders(TopPathsTail) == 1
  {
    TopPathsColumnsHaveNoPlaceholder();
    TopPathsSuccessCountHasNoPlaceholder();
    TopPathsSuccessRateHasNoPlaceholder();
    FromLogsWhereHasNoPlaceholder();
    PlaceholderFreePrefix(TopPathsColumns, TopPathsSuccessCount);
    PlaceholderFreePrefix(TopPathsColumns + TopPathsSuccessCount, TopPathsSuccessRate);
    PlaceholderFreePrefix(TopPathsColumns + TopPathsSuccessCount + TopPathsSuccessRate, FromLogsWhere);
    TopPathsOrderHasNoPlaceholder();
    PlaceholderCountOne();
    PlaceholderFreePrefix(TopPathsOrder, "?");
  }

  lemma TopPathsStatementPlaceholders()
    ensures Placeholders(TopPathsHead + RangeWhere + TopPathsTail) == 3
  {
    TopPathsTextsPlaceholders();
    RangeWherePlaceholders();
    PlaceholdersAppend(TopPathsHead, RangeWhere);
    PlaceholdersAppend(TopPathsHead + RangeWhere, TopPathsTail);
  }

  lemma TopPathsColumnsHaveNoPlaceholder()
    ensures Placeholders(TopPathsColumns) == 0
  {
    var a, b, c := "SELECT request_path, ", "COUNT(*) as count, ", "AVG(duration) as avg_duration, ";
    assert NoPlaceholder(a);
    NoPlaceholderAppend(a, b);
    NoPlaceholderAppend(a + b, c);
    NoPlaceholderCount(TopPathsColumns);
  }

  lemma TopPathsSuccessCountHasNoPlaceholder()
    ensures Placeholders(TopPathsSuccessCount) == 0
  {
    var a, b := "SUM(CASE WHEN success = 1 ", "THEN 1 ELSE 0 END) as success_count, ";
    assert NoPlaceholder(a);
    NoPlaceholderAppend(a, b);
    NoPlaceholderCount(TopPathsSuccessCount);
  }

  lemma TopPathsSuccessRateHasNoPlaceholder()
    ensures Placeholders(TopPathsSuccessRate) == 0
  {
    var a, b, c := "ROUND(SUM(CASE WHEN success = 1 ", "THEN 1 ELSE 0 END) * 100.0 ", "/ COUNT(*), 2) as success_rate ";
    assert NoPlaceholder(a);
    NoPlaceholderAppend(a, b);
    NoPlaceholderAppend(a + b, c);
    NoPlaceholderCount(TopPathsSuccessRate);
  }

  lemma FromLogsWhereHasNoPlaceholder()
    ensures Placeholders(FromLogsWhere) == 0
  {
    assert NoPlaceholder(FromLogsWhere);
    NoPlaceholderCount(FromLogsWhere);
  }

  lemma TopPathsOrderHasNoPlaceholder()
    ensures Placeholders(TopPathsOrder) == 0
  {
    var a, b, c := " GROUP BY request_path ", "ORDER BY count DESC ", "LIMIT ";
    assert NoPlaceholder(a);
    NoPlaceholderAppend(a, b);
    NoPlaceholderAppend(a + b, c);
    NoPlaceholderCount(TopPathsOrder);
  }


  lemma HourlyTextsHaveNoPlaceholder()
    ensures Placeholders(HourlyHead) == 0 && Placeholders(HourlyTail) == 0
  {
    HourlyColumnsHaveNoPlaceholder();
    HourlyAverageFromHasNoPlaceholder();
    PlaceholderFreePrefix(HourlyColumns, HourlyAverageFrom);
    assert NoPlaceholder(HourlyTail);
    NoPlaceholderCount(HourlyTail);
  }

  lemma HourlyStatementPlaceholders()
    ensures Placeholders(HourlyHead + RangeWhere + HourlyTail) == 2
  {
    HourlyTextsHaveNoPlaceholder();
    RangeWherePlaceholders();
    PlaceholdersAppend(HourlyHead, RangeWhere);
    PlaceholdersAppend(HourlyHead + RangeWhere, HourlyTail);
  }

  lemma HourlyColumnsHaveNoPlaceholder()
    ensures Placeholders(HourlyColumns) == 0
  {
    var a, b := "SELECT HOUR(created_at) as hour, ", "COUNT(*) as count, ";
    assert NoPlaceholder(a);
    NoPlaceholderAppend(a, b);
    NoPlaceholderCount(HourlyColumns);
  }

  lemma HourlyAverageFromHasNoPlaceholder()
    ensures Placeholders(HourlyAverageFrom) == 0
  {
    var a, b := "AVG(duration) as avg_duration ", "FROM api_logs WHERE ";
    assert NoPlaceholder(a);
    NoPlaceholderAppend(a, b);
    NoPlaceholderCount(HourlyAverageFrom);
  }
}
