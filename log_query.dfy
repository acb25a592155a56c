/** The paged log listing (`LogModel.getLogs`): clamping of the page and page size, the WHERE clause
    built one filter at a time with one bound parameter per filter, and the two statements that
    share it (the row count, then the page itself, newest first). */
module LogQuery {
  import opened Js
  import opened LogSql

  /** The parameters `getLogs` reads. The text filters are strings when present; the status and the
      success flag are checked against undefined, null and '' and may be of any kind. */
  datatype LogsParams = LogsParams(
    page: Value,
    pageSize: Value,
    requestMethod: Option<string>,
    requestPath: Option<string>,
    responseStatus: Value,
    success: Value,
    startDate: Option<string>,
    endDate: Option<string>)

  // ---------------------------------------------------------------------------
  // Pagination

  const DefaultPage: int := 1
  const DefaultPageSize: int := 20
  const MaxPageSize: int := 100

  /** `Math.max(1, parseInt(page) || 1)` */
  function PageNumber(v: Value): (p: int)
    ensures p >= 1
    ensures ParseInt(v).Num? && ParseInt(v).n >= 1 ==> p == ParseInt(v).n
    ensures !(ParseInt(v).Num? && ParseInt(v).n >= 1) ==> p == DefaultPage
  {
    var n := ParsedOr(v, DefaultPage);
    if n < 1 then 1 else n
  }

  /** `Math.max(1, Math.min(100, parseInt(pageSize) || 20))` */
  function PageSize(v: Value): (n: int)
    ensures 1 <= n <= MaxPageSize
    ensures ParseInt(v).Num? && 1 <= ParseInt(v).n <= MaxPageSize ==> n == ParseInt(v).n
    ensures ParseInt(v).Num? && ParseInt(v).n > MaxPageSize ==> n == MaxPageSize
    ensures ParseInt(v).Num? && ParseInt(v).n < 0 ==> n == 1
    ensures ParseInt(v).NaN? || ParseInt(v) == Num(0) ==> n == DefaultPageSize
  {
    var n := ParsedOr(v, DefaultPageSize);
    var capped := if n > MaxPageSize then MaxPageSize else n;
    if capped < 1 then 1 else capped
  }

  /** `(page - 1) * pageSize`: the number of matching rows before the page. */
  function Offset(page: int, size: int): (o: nat)
    requires page >= 1 && size >= 1
    ensures o == (page - 1) * size
  {
    (page - 1) * size
  }

  /** `Math.ceil(total / pageSize)` */
  function TotalPages(total: nat, size: int): (pages: nat)
    requires size >= 1
    ensures pages * size >= total
    ensures pages > 0 ==> (pages - 1) * size < total
  {
    (total + size - 1) / size
  }

  /** The rows `LIMIT size OFFSET offset` keeps from an ordered result. */
  function PageOf(rows: seq<LogRow>, offset: nat, size: nat): (page: seq<LogRow>)
    ensures |page| <= size
  {
    var lo := if offset < |rows| then offset else |rows|;
    var hi := if offset + size < |rows| then offset + size else |rows|;
    rows[lo..hi]
  }

  /** Pages 1 to k, one after the other. */
  function FirstPages(rows: seq<LogRow>, size: nat, k: nat): seq<LogRow>
  {
    if k == 0 then [] else FirstPages(rows, size, k - 1) + PageOf(rows, (k - 1) * size, size)
  }

  lemma {:induction false} FirstPagesPrefix(rows: seq<LogRow>, size: nat, k: nat)
    ensures FirstPages(rows, size, k) == rows[..if k * size < |rows| then k * size else |rows|]
  {
    if k > 0 {
      FirstPagesPrefix(rows, size, k - 1);
      var a := if (k - 1) * size < |rows| then (k - 1) * size else |rows|;
      var b := if k * size < |rows| then k * size else |rows|;
      assert (k - 1) * size + size == k * size;
      assert rows[..a] + rows[a..b] == rows[..b];
    }
  }

  /** Walking the pages 1, 2, …, totalPages lists every row exactly once, in order. */
  lemma PagesCoverRows(rows: seq<LogRow>, size: int)
    requires size >= 1
    ensures FirstPages(rows, size, TotalPages(|rows|, size)) == rows
  {
    FirstPagesPrefix(rows, size, TotalPages(|rows|, size));
  }

  /** 25 rows in pages of 10: three pages, the second full and the third holding the last five. */
  lemma PaginationExample(rows: seq<LogRow>)
    requires |rows| == 25
    ensures TotalPages(|rows|, 10) == 3
    ensures PageOf(rows, Offset(2, 10), 10) == rows[10..20]
    ensures |PageOf(rows, Offset(3, 10), 10)| == 5
  {
  }

  // ---------------------------------------------------------------------------
  // Filters

  /** `s && s.trim()`: a text filter counts when present, non-empty and not blank after trimming. */
  predicate Given(s: Option<string>)
  {
    s.Some? && s.value != "" && Trim(s.value) != ""
  }

  /** `v !== undefined && v !== null && v !== ''` */
  predicate GivenValue(v: Value)
  {
    v != Undefined && v != Null && v != Str("")
  }

  /** `v === 'true' || v === true` */
  predicate IsTrue(v: Value)
  {
    v == Str("true") || v == Bool(true)
  }

  /** A browser `datetime-local` value as a timestamp: trimmed, the first `T` replaced by a space,
      and `:00` appended for the seconds. */
  function NormalizeDate(s: string): string
  {
    ReplaceFirst(Trim(s), 'T', ' ') + ":00"
  }

  function MethodCond(q: LogsParams): seq<Cond>
  {
    if Given(q.requestMethod) then [Cond(RequestMethod, Eq, Str(Trim(q.requestMethod.value)))] else []
  }

  function PathCond(q: LogsParams): seq<Cond>
  {
    if Given(q.requestPath) then [Cond(RequestPath, Like, Str(PathPattern(q.requestPath.value)))] else []
  }

  function StatusCond(q: LogsParams): seq<Cond>
  {
    if GivenValue(q.responseStatus) then [Cond(ResponseStatus, Eq, ParseInt(q.responseStatus))] else []
  }

  function SuccessCond(q: LogsParams): seq<Cond>
  {
    if GivenValue(q.success) then [Cond(SuccessFlag, Eq, if IsTrue(q.success) then Num(1) else Num(0))] else []
  }

  function StartCond(q: LogsParams): seq<Cond>
  {
    if Given(q.startDate) then [Cond(CreatedAt, AtLeast, Str(NormalizeDate(q.startDate.value)))] else []
  }

  function EndCond(q: LogsParams): seq<Cond>
  {
    if Given(q.endDate) then [Cond(CreatedAt, AtMost, Str(NormalizeDate(q.endDate.value)))] else []
  }

  /** The conditions of the listing, in the fixed order method, path, status, success, start, end. */
  function LogsConditions(q: LogsParams): seq<Cond>
  {
    MethodCond(q) + PathCond(q) + StatusCond(q) + SuccessCond(q) + StartCond(q) + EndCond(q)
  }

  method AddMethodFilter(q: LogsParams, whereClause: string, queryParams: seq<Value>, ghost added: seq<Cond>)
    returns (w: string, ps: seq<Value>)
    requires whereClause == WhereText(added) && queryParams == Args(added)
    ensures w == WhereText(added + MethodCond(q)) && ps == Args(added + MethodCond(q))
  {
    w, ps := whereClause, queryParams;
    if q.requestMethod.Some? && q.requestMethod.value != "" && Trim(q.requestMethod.value) != "" {
      var c := Cond(RequestMethod, Eq, Str(Trim(q.requestMethod.value)));
      assert MethodCond(q) == [c];
      assert w == "" + WhereText(added);
      w, ps := AddCondition(w, ps, "", added, c);
      assert w == WhereText(added + [c]);
    } else {
      assert added + MethodCond(q) == added;
    }
  }

  method AddPathFilter(q: LogsParams, whereClause: string, queryParams: seq<Value>, ghost added: seq<Cond>)
    returns (w: string, ps: seq<Value>)
    requires whereClause == WhereText(added) && queryParams == Args(added)
    ensures w == WhereText(added + PathCond(q)) && ps == Args(added + PathCond(q))
  {
    w, ps := whereClause, queryParams;
    if q.requestPath.Some? && q.requestPath.value != "" && Trim(q.requestPath.value) != "" {
      var c := Cond(RequestPath, Like, Str("%" + Trim(q.requestPath.value) + "%"));
      assert PathCond(q) == [c];
      assert w == "" + WhereText(added);
      w, ps := AddCondition(w, ps, "", added, c);
      assert w == WhereText(added + [c]);
    } else {
      assert added + PathCond(q) == added;
    }
  }

  method AddStatusFilter(q: LogsParams, whereClause: string, queryParams: seq<Value>, ghost added: seq<Cond>)
    returns (w: string, ps: seq<Value>)
    requires whereClause == WhereText(added) && queryParams == Args(added)
    ensures w == WhereText(added + StatusCond(q)) && ps == Args(added + StatusCond(q))
  {
    w, ps := whereClause, queryParams;
    if q.responseStatus != Undefined && q.responseStatus != Null && q.responseStatus != Str("") {
      var statusValue := ParseInt(q.responseStatus);
      var c := Cond(ResponseStatus, Eq, statusValue);
      assert StatusCond(q) == [c];
      assert w == "" + WhereText(added);
      w, ps := AddCondition(w, ps, "", added, c);
      assert w == WhereText(added + [c]);
    } else {
      assert added + StatusCond(q) == added;
    }
  }

  method AddSuccessFilter(q: LogsParams, whereClause: string, queryParams: seq<Value>, ghost added: seq<Cond>)
    returns (w: string, ps: seq<Value>)
    requires whereClause == WhereText(added) && queryParams == Args(added)
    ensures w == WhereText(added + SuccessCond(q)) && ps == Args(added + SuccessCond(q))
  {
    w, ps := whereClause, queryParams;
    if q.success != Undefined && q.success != Null && q.success != Str("") {
      var successValue := if q.success == Str("true") || q.success == Bool(true) then Num(1) else Num(0);
      var c := Cond(SuccessFlag, Eq, successValue);
      assert SuccessCond(q) == [c];
      assert w == "" + WhereText(added);
      w, ps := AddCondition(w, ps, "", added, c);
      assert w == WhereText(added + [c]);
    } else {
      assert added + SuccessCond(q) == added;
    }
  }

  method AddStartFilter(q: LogsParams, whereClause: string, queryParams: seq<Value>, ghost added: seq<Cond>)
    returns (w: string, ps: seq<Value>)
    requires whereClause == WhereText(added) && queryParams == Args(added)
    ensures w == WhereText(added + StartCond(q)) && ps == Args(added + StartCond(q))
  {
    w, ps := whereClause, queryParams;
    if q.startDate.Some? && q.startDate.value != "" && Trim(q.startDate.value) != "" {
      var startDateTime := ReplaceFirst(Trim(q.startDate.value), 'T', ' ') + ":00";
      var c := Cond(CreatedAt, AtLeast, Str(startDateTime));
      assert StartCond(q) == [c];
      assert w == "" + WhereText(added);
      w, ps := AddCondition(w, ps, "", added, c);
      assert w == WhereText(added + [c]);
    } else {
      assert added + StartCond(q) == added;
    }
  }

  method AddEndFilter(q: LogsParams, whereClause: string, queryParams: seq<Value>, ghost added: seq<Cond>)
    returns (w: string, ps: seq<Value>)
    requires whereClause == WhereText(added) && queryParams == Args(added)
    ensures w == WhereText(added + EndCond(q)) && ps == Args(added + EndCond(q))
  {
    w, ps := whereClause, queryParams;
    if q.endDate.Some? && q.endDate.value != "" && Trim(q.endDate.value) != "" {
      var endDateTime := ReplaceFirst(Trim(q.endDate.value), 'T', ' ') + ":00";
      var c := Cond(CreatedAt, AtMost, Str(endDateTime));
      assert EndCond(q) == [c];
      assert w == "" + WhereText(added);
      w, ps := AddCondition(w, ps, "", added, c);
      assert w == WhereText(added + [c]);
    } else {
      assert added + EndCond(q) == added;
    }
  }

  /** Builds the WHERE clause the way `getLogs` does: start from `WHERE 1=1` and, for each filter
      that is present, append its fragment and push its parameter. */
  method BuildLogsWhere(q: LogsParams) returns (whereClause: string, queryParams: seq<Value>)
    ensures whereClause == WhereText(LogsConditions(q))
    ensures queryParams == Args(LogsConditions(q))
  {
    whereClause := "WHERE 1=1";
    queryParams := [];
    assert WhereText([]) == whereClause;
    whereClause, queryParams := AddMethodFilter(q, whereClause, queryParams, []);
    assert [] + MethodCond(q) == MethodCond(q);
    whereClause, queryParams := AddPathFilter(q, whereClause, queryParams, MethodCond(q));
    whereClause, queryParams := AddStatusFilter(q, whereClause, queryParams, MethodCond(q) + PathCond(q));
    whereClause, queryParams :=
      AddSuccessFilter(q, whereClause, queryParams, MethodCond(q) + PathCond(q) + StatusCond(q));
    whereClause, queryParams :=
      AddStartFilter(q, whereClause, queryParams, MethodCond(q) + PathCond(q) + StatusCond(q) + SuccessCond(q));
    whereClause, queryParams := AddEndFilter(q, whereClause, queryParams,
      MethodCond(q) + PathCond(q) + StatusCond(q) + SuccessCond(q) + StartCond(q));
  }

  /** Each present filter contributes exactly one condition, and absent or blank ones none. */
  lemma LogsConditionCount(q: LogsParams)
    ensures |LogsConditions(q)| ==
      (if Given(q.requestMethod) then 1 else 0) + (if Given(q.requestPath) then 1 else 0) +
      (if GivenValue(q.responseStatus) then 1 else 0) + (if GivenValue(q.success) then 1 else 0) +
      (if Given(q.startDate) then 1 else 0) + (if Given(q.endDate) then 1 else 0)
    ensures |Args(LogsConditions(q))| == |LogsConditions(q)|
  {
  }

  /** Filters that are absent, empty or blank add nothing: with no filter at all, the clause is
      `WHERE 1=1` and binds no parameter. */
  lemma BlankFiltersIgnored(q: LogsParams)
    requires q.requestMethod.Some? ==> AllSpace(q.requestMethod.value)
    requires q.requestPath.Some? ==> AllSpace(q.requestPath.value)
    requires q.startDate.Some? ==> AllSpace(q.startDate.value)
    requires q.endDate.Some? ==> AllSpace(q.endDate.value)
    requires q.responseStatus in {Undefined, Null, Str("")} && q.success in {Undefined, Null, Str("")}
    ensures LogsConditions(q) == []
    ensures WhereText(LogsConditions(q)) == WhereAll && Args(LogsConditions(q)) == []
  {
    if q.requestMethod.Some? { TrimBlank(q.requestMethod.value); }
    if q.requestPath.Some? { TrimBlank(q.requestPath.value); }
    if q.startDate.Some? { TrimBlank(q.startDate.value); }
    if q.endDate.Some? { TrimBlank(q.endDate.value); }
  }

  /** The text filters with their surrounding blanks removed. */
  function Trimmed(s: Option<string>): Option<string>
  {
    if s.Some? then Some(Trim(s.value)) else None
  }

  lemma GivenTrimmed(s: Option<string>)
    ensures Given(Trimmed(s)) == Given(s)
    ensures Given(s) ==> Trim(Trimmed(s).value) == Trim(s.value)
  {
    if s.Some? {
      TrimIdempotent(s.value);
      if s.value == "" {
        assert Trim(s.value) == "";
      }
    }
  }

  /** Surrounding blanks in a text filter make no difference: trimming the filters first yields the
      same conditions. */
  lemma TrimmedFiltersSameConditions(q: LogsParams)
    ensures LogsConditions(q.(requestMethod := Trimmed(q.requestMethod), requestPath := Trimmed(q.requestPath),
      startDate := Trimmed(q.startDate), endDate := Trimmed(q.endDate))) == LogsConditions(q)
  {
    TrimmedFieldsSameConditions(q, q.(requestMethod := Trimmed(q.requestMethod),
      requestPath := Trimmed(q.requestPath), startDate := Trimmed(q.startDate), endDate := Trimmed(q.endDate)));
  }

  lemma TrimmedFieldsSameConditions(q: LogsParams, t: LogsParams)
    requires t.requestMethod == Trimmed(q.requestMethod) && t.requestPath == Trimmed(q.requestPath)
    requires t.startDate == Trimmed(q.startDate) && t.endDate == Trimmed(q.endDate)
    requires t.responseStatus == q.responseStatus && t.success == q.success
    ensures LogsConditions(t) == LogsConditions(q)
  {
    TrimmedMethodSameCondition(q, t);
    TrimmedPathSameCondition(q, t);
    TrimmedStartSameCondition(q, t);
    TrimmedEndSameCondition(q, t);
    SameFlagConditions(q, t);
    SameConditionsSameList(q, t);
  }

  /** The condition list is made of its six parts and nothing else. */
  lemma SameConditionsSameList(q: LogsParams, t: LogsParams)
    requires MethodCond(t) == MethodCond(q) && PathCond(t) == PathCond(q) && StatusCond(t) == StatusCond(q)
    requires SuccessCond(t) == SuccessCond(q) && StartCond(t) == StartCond(q) && EndCond(t) == EndCond(q)
    ensures LogsConditions(t) == LogsConditions(q)
  {
  }

  lemma SameFlagConditions(q: LogsParams, t: LogsParams)
    requires t.responseStatus == q.responseStatus && t.success == q.success
    ensures StatusCond(t) == StatusCond(q) && SuccessCond(t) == SuccessCond(q)
  {
  }

  lemma TrimmedMethodSameCondition(q: LogsParams, t: LogsParams)
    requires t.requestMethod == Trimmed(q.requestMethod)
    ensures MethodCond(t) == MethodCond(q)
  {
    GivenTrimmed(q.requestMethod);
  }

  lemma TrimmedPathSameCondition(q: LogsParams, t: LogsParams)
    requires t.requestPath == Trimmed(q.requestPath)
    ensures PathCond(t) == PathCond(q)
  {
    GivenTrimmed(q.requestPath);
  }

  lemma TrimmedStartSameCondition(q: LogsParams, t: LogsParams)
    requires t.startDate == Trimmed(q.startDate)
    ensures StartCond(t) == StartCond(q)
  {
    GivenTrimmed(q.startDate);
  }

  lemma TrimmedEndSameCondition(q: LogsParams, t: LogsParams)
    requires t.endDate == Trimmed(q.endDate)
    ensures EndCond(t) == EndCond(q)
  {
    GivenTrimmed(q.endDate);
  }

  /** A `datetime-local` value `<date>T<time>` becomes the timestamp `<date> <time>:00`; for example
      `2025-11-25T00:00` becomes `2025-11-25 00:00:00`. */
  lemma NormalizeLocalDateTime(date: string, time: string)
    requires date != [] && !IsSpace(date[0]) && 'T' !in date
    requires time != [] && !IsSpace(time[|time| - 1])
    ensures NormalizeDate(date + "T" + time) == date + " " + time + ":00"
  {
    var s := date + ("T" + time);
    assert date + "T" + time == s;
    TrimStartIdle(s);
    assert s[|s| - 1] == time[|time| - 1];
    TrimEndIdle(s);
    IndexOfAfterPrefix(date, "T" + time, 'T');
    var r := ReplaceFirst(s, 'T', ' ');
    var t := date + " " + time;
    forall i | 0 <= i < |s| ensures r[i] == t[i] {
      if i < |date| {
        assert r[i] == s[i] == date[i];
      } else if i > |date| {
        assert r[i] == s[i] == ("T" + time)[i - |date|] == time[i - |date| - 1];
      }
    }
    assert r == t;
  }

  // ---------------------------------------------------------------------------
  // The two statements

  const CountHead := "SELECT COUNT(*) as total FROM api_logs "
  const PageHead := "SELECT * FROM api_logs "
  const PageOrder := " ORDER BY created_at DESC LIMIT "
  const PageOffset := " OFFSET "

  datatype LogsPage = LogsPage(total: nat, page: int, pageSize: int, totalPages: nat, data: seq<LogRow>)

  /** The rows of a table that satisfy every condition, in table order. The table is taken to be in
      the statement's `ORDER BY created_at DESC` order already. */
  function Select(table: seq<LogRow>, cs: seq<Cond>): (rows: seq<LogRow>)
    ensures |rows| <= |table|
    ensures forall r :: r in rows <==> r in table && AllHold(r, cs)
  {
    if table == [] then []
    else (if AllHold(table[0], cs) then [table[0]] else []) + Select(table[1..], cs)
  }

  /** Each row is selected as often as it occurs in the table when it satisfies every condition,
      and never otherwise. */
  lemma {:induction false} SelectCounts(table: seq<LogRow>, cs: seq<Cond>)
    ensures forall r :: multiset(Select(table, cs))[r] == if AllHold(r, cs) then multiset(table)[r] else 0
  {
    if table != [] {
      assert table == [table[0]] + table[1..];
      SelectCounts(table[1..], cs);
    }
  }

  /** Selection keeps table order: selecting from two runs of rows is selecting from each, one after
      the other. */
  lemma {:induction false} SelectAppend(a: seq<LogRow>, b: seq<LogRow>, cs: seq<Cond>)
    ensures Select(a + b, cs) == Select(a, cs) + Select(b, cs)
  {
    if a == [] {
      assert a + b == b;
    } else {
      assert (a + b)[0] == a[0];
      assert (a + b)[1..] == a[1..] + b;
      SelectAppend(a[1..], b, cs);
    }
  }

  /** Under the restriction `LogsClauseMeaning` needs, the rows `getLogs` counts are the table's rows
      that satisfy the filters, each as often as it occurs in the table; so the total is their number. */
  lemma SelectCountsMatchingRows(table: seq<LogRow>, q: LogsParams)
    requires Given(q.requestPath) ==> NoLikeSpecial(Trim(q.requestPath.value))
    ensures forall r :: multiset(Select(table, LogsConditions(q)))[r] == if Matches(r, q) then multiset(table)[r] else 0
  {
    SelectCounts(table, LogsConditions(q));
    forall r {
      LogsClauseMeaning(r, q);
    }
  }

  /** What `getLogs` resolves with, or the error it rethrows when MySQL rejects the count statement. */
  datatype Listing = Listed(page: LogsPage) | Failed(message: string)

  /** `getLogs`: clamp the paging, build the clause, count the matching rows, then fetch the page
      with the same clause and parameters and with LIMIT and OFFSET printed into the text. When a
      parameter is NaN the count statement fails, the page is never fetched, and the error is
      rethrown. */
  method GetLogs(q: LogsParams, table: seq<LogRow>) returns (countQuery: Query, pageQuery: Option<Query>, result: Listing)
    ensures countQuery.sql == CountHead + WhereText(LogsConditions(q))
    ensures countQuery.params == Args(LogsConditions(q))
    ensures !Bindable(countQuery.params) ==> pageQuery.None? && result == Failed(UnknownNaNColumn)
    ensures Bindable(countQuery.params) ==> pageQuery.Some? && result.Listed?
    ensures result.Listed? ==> pageQuery.Some? && pageQuery.value.params == countQuery.params
    ensures result.Listed? ==> result.page.page == PageNumber(q.page) && result.page.pageSize == PageSize(q.pageSize)
    ensures result.Listed? ==> (pageQuery.Some? && pageQuery.value.sql ==
      PageHead + WhereText(LogsConditions(q)) + PageOrder + Decimal(result.page.pageSize) + PageOffset +
      Decimal(Offset(result.page.page, result.page.pageSize)))
    ensures result.Listed? ==> result.page.total == |Select(table, LogsConditions(q))|
    ensures result.Listed? ==> result.page.totalPages == TotalPages(result.page.total, result.page.pageSize)
    ensures result.Listed? ==> (result.page.data ==
      PageOf(Select(table, LogsConditions(q)), Offset(result.page.page, result.page.pageSize), result.page.pageSize))
  {
    var page := PageNumber(q.page);
    var pageSize := PageSize(q.pageSize);
    var whereClause, queryParams := BuildLogsWhere(q);

    countQuery := Query(CountHead + whereClause, queryParams);
    if !Bindable(queryParams) {
      pageQuery := None;
      result := Failed(UnknownNaNColumn);
      return;
    }
    var total := |Select(table, LogsConditions(q))|;

    var offset := Offset(page, pageSize);
    var limitText := Show(ParseInt(Num(pageSize)));
    var offsetText := Show(ParseInt(Num(offset)));
    ParseIntNum(pageSize);
    ParseIntNum(offset);
    assert limitText == Decimal(pageSize) && offsetText == Decimal(offset);
    pageQuery := Some(Query(PageHead + whereClause + PageOrder + limitText + PageOffset + offsetText, queryParams));
    var rows := PageOf(Select(table, LogsConditions(q)), offset, pageSize);

    result := Listed(LogsPage(total, page, pageSize, TotalPages(total, pageSize), rows));
  }

  /** The statements of `getLogs` fail exactly when a status filter is given that does not parse as
      an integer; every other filter binds a string or a number. */
  lemma LogsParamsBindable(q: LogsParams)
    ensures Bindable(Args(LogsConditions(q))) <==>
      !(GivenValue(q.responseStatus) && ParseInt(q.responseStatus).NaN?)
  {
    var m, p, st, su, s, e := MethodCond(q), PathCond(q), StatusCond(q), SuccessCond(q), StartCond(q), EndCond(q);
    ArgsBindableAppend(m, p);
    ArgsBindableAppend(m + p, st);
    ArgsBindableAppend(m + p + st, su);
    ArgsBindableAppend(m + p + st + su, s);
    ArgsBindableAppend(m + p + st + su + s, e);
    MethodArgBindable(q);
    PathArgBindable(q);
    StatusArgBindable(q);
    SuccessArgBindable(q);
    StartArgBindable(q);
    EndArgBindable(q);
  }

  lemma MethodArgBindable(q: LogsParams)
    ensures Bindable(Args(MethodCond(q)))
  {
    if Given(q.requestMethod) {
      OptionalArgBindable(MethodCond(q), true, Cond(RequestMethod, Eq, Str(Trim(q.requestMethod.value))));
    }
  }

  lemma PathArgBindable(q: LogsParams)
    ensures Bindable(Args(PathCond(q)))
  {
    if Given(q.requestPath) {
      OptionalArgBindable(PathCond(q), true, Cond(RequestPath, Like, Str(PathPattern(q.requestPath.value))));
    }
  }

  lemma StatusArgBindable(q: LogsParams)
    ensures Bindable(Args(StatusCond(q))) <==> !(GivenValue(q.responseStatus) && ParseInt(q.responseStatus).NaN?)
  {
    if GivenValue(q.responseStatus) {
      OptionalArgBindable(StatusCond(q), true, Cond(ResponseStatus, Eq, ParseInt(q.responseStatus)));
    }
  }

  lemma SuccessArgBindable(q: LogsParams)
    ensures Bindable(Args(SuccessCond(q)))
  {
    if GivenValue(q.success) {
      OptionalArgBindable(SuccessCond(q), true, Cond(SuccessFlag, Eq, if IsTrue(q.success) then Num(1) else Num(0)));
    }
  }

  lemma StartArgBindable(q: LogsParams)
    ensures Bindable(Args(StartCond(q)))
  {
    if Given(q.startDate) {
      OptionalArgBindable(StartCond(q), true, Cond(CreatedAt, AtLeast, Str(NormalizeDate(q.startDate.value))));
    }
  }

  lemma EndArgBindable(q: LogsParams)
    ensures Bindable(Args(EndCond(q)))
  {
    if Given(q.endDate) {
      OptionalArgBindable(EndCond(q), true, Cond(CreatedAt, AtMost, Str(NormalizeDate(q.endDate.value))));
    }
  }

  lemma CountHeadHasNoPlaceholder()
    ensures Placeholders(CountHead) == 0
  {
    assert NoPlaceholder(CountHead);
    NoPlaceholderCount(CountHead);
  }

  lemma PageHeadHasNoPlaceholder()
    ensures Placeholders(PageHead) == 0
  {
    assert NoPlaceholder(PageHead);
    NoPlaceholderCount(PageHead);
  }

  lemma PageOrderHasNoPlaceholder()
    ensures Placeholders(PageOrder) == 0
  {
    assert NoPlaceholder(PageOrder);
    NoPlaceholderCount(PageOrder);
  }

  lemma PageOffsetHasNoPlaceholder()
    ensures Placeholders(PageOffset) == 0
  {
    assert NoPlaceholder(PageOffset);
    NoPlaceholderCount(PageOffset);
  }

  /** Both statements bind exactly their parameters: the count of `?` equals the number of
      parameters, and the LIMIT and OFFSET numbers add none. */
  lemma LogsStatementsBindParams(q: LogsParams, size: int, offset: int)
    ensures Placeholders(CountHead + WhereText(LogsConditions(q))) == |Args(LogsConditions(q))|
    ensures Placeholders(PageHead + WhereText(LogsConditions(q)) + PageOrder + Decimal(size) +
      PageOffset + Decimal(offset)) == |Args(LogsConditions(q))|
  {
    CountStatementPlaceholders(LogsConditions(q));
    PageStatementPlaceholders(LogsConditions(q), size, offset);
  }

  lemma CountStatementPlaceholders(cs: seq<Cond>)
    ensures Placeholders(CountHead + WhereText(cs)) == |Args(cs)|
  {
    WherePlaceholders(cs);
    CountHeadHasNoPlaceholder();
    PlaceholderFreePrefix(CountHead, WhereText(cs));
  }

  lemma PageStatementPlaceholders(cs: seq<Cond>, size: int, offset: int)
    ensures Placeholders(PageHead + WhereText(cs) + PageOrder + Decimal(size) + PageOffset + Decimal(offset)) == |Args(cs)|
  {
    var w := WhereText(cs);
    WherePlaceholders(cs);
    PageHeadHasNoPlaceholder();
    PageOrderHasNoPlaceholder();
    PageOffsetHasNoPlaceholder();
    DecimalHasNoPlaceholder(size);
    DecimalHasNoPlaceholder(offset);
    PlaceholderFreePrefix(PageHead, w);
    PlaceholderFreeSuffix(PageHead + w, PageOrder);
    PlaceholderFreeSuffix(PageHead + w + PageOrder, Decimal(size));
    PlaceholderFreeSuffix(PageHead + w + PageOrder + Decimal(size), PageOffset);
    PlaceholderFreeSuffix(PageHead + w + PageOrder + Decimal(size) + PageOffset, Decimal(offset));
  }

  // ---------------------------------------------------------------------------
  // What the filters select

  /** The listing's filters, stated directly on a row: the same method, a path containing the
      trimmed text, the parsed status, the success flag, and the creation time within the normalised
      bounds. A status that parses to NaN matches no row here; the statement itself never runs then
      (`LogsParamsBindable`, `GetLogs`). */
  predicate Matches(row: LogRow, q: LogsParams)
  {
    MethodMatches(row, q) && PathMatches(row, q) && StatusMatches(row, q) &&
    SuccessMatches(row, q) && StartMatches(row, q) && EndMatches(row, q)
  }

  predicate MethodMatches(row: LogRow, q: LogsParams)
  {
    Given(q.requestMethod) ==> row.requestMethod == Some(Trim(q.requestMethod.value))
  }

  predicate PathMatches(row: LogRow, q: LogsParams)
  {
    Given(q.requestPath) ==>
      row.requestPath.Some? && IsSubstring(Trim(q.requestPath.value), row.requestPath.value)
  }

  predicate StatusMatches(row: LogRow, q: LogsParams)
  {
    GivenValue(q.responseStatus) ==>
      ParseInt(q.responseStatus).Num? && row.responseStatus == Some(ParseInt(q.responseStatus).n)
  }

  predicate SuccessMatches(row: LogRow, q: LogsParams)
  {
    GivenValue(q.success) ==> row.success == Some(if IsTrue(q.success) then 1 else 0)
  }

  predicate StartMatches(row: LogRow, q: LogsParams)
  {
    Given(q.startDate) ==> TextLe(NormalizeDate(q.startDate.value), row.createdAt)
  }

  predicate EndMatches(row: LogRow, q: LogsParams)
  {
    Given(q.endDate) ==> TextLe(row.createdAt, NormalizeDate(q.endDate.value))
  }

  /** A filter that adds at most one condition holds exactly when that condition does. */
  lemma OptionalCondMeaning(row: LogRow, cs: seq<Cond>, present: bool, c: Cond)
    requires cs == if present then [c] else []
    ensures AllHold(row, cs) <==> (present ==> Holds(row, c))
  {
    if present {
      assert cs[0] == c;
    }
  }

  /** A date filter that adds at most one condition holds exactly when its comparison does. */
  lemma CreatedAtCondMeaning(row: LogRow, cs: seq<Cond>, present: bool, op: Op, d: string)
    requires op == AtLeast || op == AtMost
    requires cs == if present then [Cond(CreatedAt, op, Str(d))] else []
    ensures AllHold(row, cs) <==>
      (present ==> if op == AtLeast then TextLe(d, row.createdAt) else TextLe(row.createdAt, d))
  {
    if present {
      assert cs[0] == Cond(CreatedAt, op, Str(d));
    }
  }

  lemma AllHoldAppend(row: LogRow, a: seq<Cond>, b: seq<Cond>)
    ensures AllHold(row, a + b) <==> AllHold(row, a) && AllHold(row, b)
  {
    if AllHold(row, a) && AllHold(row, b) {
      forall i | 0 <= i < |a + b| ensures Holds(row, (a + b)[i]) {
        if i >= |a| {
          assert (a + b)[i] == b[i - |a|];
        }
      }
    }
    if AllHold(row, a + b) {
      forall i | 0 <= i < |a| ensures Holds(row, a[i]) {
        assert (a + b)[i] == a[i];
      }
      forall i | 0 <= i < |b| ensures Holds(row, b[i]) {
        assert (a + b)[|a| + i] == b[i];
      }
    }
  }

  lemma MethodCondMeaning(row: LogRow, q: LogsParams)
    ensures AllHold(row, MethodCond(q)) <==> MethodMatches(row, q)
  {
    if Given(q.requestMethod) {
      OptionalCondMeaning(row, MethodCond(q), true, Cond(RequestMethod, Eq, Str(Trim(q.requestMethod.value))));
    }
  }

  lemma PathCondMeaning(row: LogRow, q: LogsParams)
    requires Given(q.requestPath) ==> NoLikeSpecial(Trim(q.requestPath.value))
    ensures AllHold(row, PathCond(q)) <==> PathMatches(row, q)
  {
    if Given(q.requestPath) {
      OptionalCondMeaning(row, PathCond(q), true, Cond(RequestPath, Like, Str(PathPattern(q.requestPath.value))));
      if row.requestPath.Some? {
        LikeContains(row.requestPath.value, Trim(q.requestPath.value));
      }
    }
  }

  lemma StatusHolds(row: LogRow, v: Value)
    requires v.Num? || v.NaN?
    ensures Holds(row, Cond(ResponseStatus, Eq, v)) <==> v.Num? && row.responseStatus == Some(v.n)
  {
  }

  lemma StatusCondMeaning(row: LogRow, q: LogsParams)
    ensures AllHold(row, StatusCond(q)) <==> StatusMatches(row, q)
  {
    if GivenValue(q.responseStatus) {
      var v := ParseInt(q.responseStatus);
      OptionalCondMeaning(row, StatusCond(q), true, Cond(ResponseStatus, Eq, v));
      StatusHolds(row, v);
    }
  }

  lemma SuccessCondMeaning(row: LogRow, q: LogsParams)
    ensures AllHold(row, SuccessCond(q)) <==> SuccessMatches(row, q)
  {
    if GivenValue(q.success) {
      OptionalCondMeaning(row, SuccessCond(q), true, Cond(SuccessFlag, Eq, if IsTrue(q.success) then Num(1) else Num(0)));
    }
  }

  lemma StartCondMeaning(row: LogRow, q: LogsParams)
    ensures AllHold(row, StartCond(q)) <==> StartMatches(row, q)
  {
    var d := if Given(q.startDate) then NormalizeDate(q.startDate.value) else "";
    CreatedAtCondMeaning(row, StartCond(q), Given(q.startDate), AtLeast, d);
  }

  lemma EndCondMeaning(row: LogRow, q: LogsParams)
    ensures AllHold(row, EndCond(q)) <==> EndMatches(row, q)
  {
    var d := if Given(q.endDate) then NormalizeDate(q.endDate.value) else "";
    CreatedAtCondMeaning(row, EndCond(q), Given(q.endDate), AtMost, d);
  }

  /** The clause selects exactly the rows the filters describe, provided the path filter holds no
      LIKE wildcard or escape character (see `PathPatternOverMatches` for what happens otherwise). */
  lemma LogsClauseMeaning(row: LogRow, q: LogsParams)
    requires Given(q.requestPath) ==> NoLikeSpecial(Trim(q.requestPath.value))
    ensures AllHold(row, LogsConditions(q)) <==> Matches(row, q)
  {
    var m, p, st, su, s, e := MethodCond(q), PathCond(q), StatusCond(q), SuccessCond(q), StartCond(q), EndCond(q);
    AllHoldAppend(row, m, p);
    AllHoldAppend(row, m + p, st);
    AllHoldAppend(row, m + p + st, su);
    AllHoldAppend(row, m + p + st + su, s);
    AllHoldAppend(row, m + p + st + su + s, e);
    MethodCondMeaning(row, q);
    PathCondMeaning(row, q);
    StatusCondMeaning(row, q);
    SuccessCondMeaning(row, q);
    StartCondMeaning(row, q);
    EndCondMeaning(row, q);
  }

  /** The count and the page read the same selection: the page is a slice of the counted rows, and
      every row on it satisfies the filters. */
  lemma PageWithinCount(q: LogsParams, table: seq<LogRow>, page: int, size: int)
    requires page >= 1 && size >= 1
    requires Given(q.requestPath) ==> NoLikeSpecial(Trim(q.requestPath.value))
    ensures var selected := Select(table, LogsConditions(q));
      var rows := PageOf(selected, Offset(page, size), size);
      && |rows| <= size
      && (exists lo, hi :: 0 <= lo <= hi <= |selected| && rows == selected[lo..hi])
      && (forall r :: r in rows ==> r in table && Matches(r, q))
  {
    var selected := Select(table, LogsConditions(q));
    var rows := PageOf(selected, Offset(page, size), size);
    var lo := if Offset(page, size) < |selected| then Offset(page, size) else |selected|;
    var hi := if Offset(page, size) + size < |selected| then Offset(page, size) + size else |selected|;
    assert rows == selected[lo..hi];
    forall r | r in rows ensures r in table && Matches(r, q) {
      assert r in selected;
      LogsClauseMeaning(r, q);
    }
  }

  // ---------------------------------------------------------------------------
  // The unescaped path pattern

  /** The path pattern as `getLogs` binds it: the trimmed text between two `%`, unescaped. */
  function PathPattern(path: string): string
  {
    "%" + Trim(path) + "%"
  }

  /** The path pattern with LIKE's special characters escaped. */
  function EscapedPathPattern(path: string): string
  {
    "%" + EscapeLike(Trim(path)) + "%"
  }

  /** As written, an `_` in the path filter matches any character: filtering on `a_c` lists a row
      whose path is `abc`, which does not contain `a_c`. */
  lemma PathPatternOverMatches()
    ensures LikeMatch("abc", PathPattern("a_c"))
    ensures !IsSubstring("a_c", "abc")
  {
    PatternOfPlainPath();
    UnderscoreMatchesAnyCharacter();
    PlainPathNotInRow();
  }

  lemma PatternOfPlainPath()
    ensures PathPattern("a_c") == "%a_c%"
  {
    var x := "a_c";
    TrimStartIdle(x);
    TrimEndIdle(x);
  }

  /** With the wildcards escaped, the path filter is exactly substring search. */
  lemma EscapedPathPatternIsSubstring(s: string, path: string)
    ensures LikeMatch(s, EscapedPathPattern(path)) <==> IsSubstring(Trim(path), s)
  {
    LikeContainsEscaped(s, Trim(path));
  }
}
