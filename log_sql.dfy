/** The SQL vocabulary that the log store's query builders share: the filterable columns of the
    `api_logs` table, the `AND <column> <op> ?` fragments appended to a `WHERE 1=1` clause with one
    bound parameter each, the count of `?` placeholders in a text, and what a condition means for a
    stored row (MySQL `=`, `LIKE` with its `%`, `_` and `\` characters, and timestamp bounds). */
module LogSql {
  import opened Js

  /** A statement text and the parameters bound to its `?` placeholders, in order. */
  datatype Query = Query(sql: string, params: seq<Value>)

  datatype Column = RequestMethod | RequestPath | ResponseStatus | SuccessFlag | CreatedAt

  datatype Op = Eq | Like | AtLeast | AtMost

  /** One conjunct of a WHERE clause and the value bound to its placeholder. */
  datatype Cond = Cond(column: Column, op: Op, arg: Value)

  function ColumnName(c: Column): string
  {
    match c
    case RequestMethod => "request_method"
    case RequestPath => "request_path"
    case ResponseStatus => "response_status"
    case SuccessFlag => "success"
    case CreatedAt => "created_at"
  }

  function OpText(op: Op): string
  {
    match op
    case Eq => " = "
    case Like => " LIKE "
    case AtLeast => " >= "
    case AtMost => " <= "
  }

  /** The text one condition appends to the clause. */
  function Fragment(c: Cond): string
  {
    " AND " + ColumnName(c.column) + OpText(c.op) + "?"
  }

  /** The appended fragments, in the order the conditions were added. */
  function Fragments(cs: seq<Cond>): string
  {
    if cs == [] then "" else Fragments(cs[..|cs| - 1]) + Fragment(cs[|cs| - 1])
  }

  /** The parameters bound by the conditions, in the same order. */
  function Args(cs: seq<Cond>): (ps: seq<Value>)
    ensures |ps| == |cs| && forall i :: 0 <= i < |cs| ==> ps[i] == cs[i].arg
  {
    if cs == [] then [] else Args(cs[..|cs| - 1]) + [cs[|cs| - 1].arg]
  }

  /** `pool.query` writes each parameter into the text before the statement is sent: a string
      quoted, an integer in decimal, and NaN as the bare word `NaN`, which MySQL reads as the name of
      a column that does not exist. A statement runs exactly when none of its parameters is NaN. */
  predicate Bindable(params: seq<Value>)
  {
    forall i :: 0 <= i < |params| ==> !params[i].NaN?
  }

  /** The error MySQL answers for a NaN written into a WHERE clause. */
  const UnknownNaNColumn := "Unknown column 'NaN' in 'where clause'"

  lemma ArgsBindableAppend(a: seq<Cond>, b: seq<Cond>)
    ensures Bindable(Args(a + b)) <==> Bindable(Args(a)) && Bindable(Args(b))
  {
    var ab := a + b;
    if Bindable(Args(a)) && Bindable(Args(b)) {
      forall i | 0 <= i < |ab| ensures !Args(ab)[i].NaN? {
        if i >= |a| {
          assert ab[i] == b[i - |a|];
        }
      }
    }
    if Bindable(Args(ab)) {
      forall i | 0 <= i < |a| ensures !Args(a)[i].NaN? {
        assert ab[i] == a[i];
      }
      forall i | 0 <= i < |b| ensures !Args(b)[i].NaN? {
        assert ab[|a| + i] == b[i];
      }
    }
  }

  /** A filter that adds at most one condition leaves the statement runnable unless its value is NaN. */
  lemma OptionalArgBindable(cs: seq<Cond>, present: bool, c: Cond)
    requires cs == if present then [c] else []
    ensures Bindable(Args(cs)) <==> (present ==> !c.arg.NaN?)
  {
    if present {
      assert Args(cs)[0] == c.arg;
    }
  }

  const WhereAll := "WHERE 1=1"

  function WhereText(cs: seq<Cond>): string
  {
    WhereAll + Fragments(cs)
  }

  /** Adding one condition appends its fragment to the clause and its value to the parameters. */
  lemma WhereSnoc(cs: seq<Cond>, c: Cond)
    ensures WhereText(cs + [c]) == WhereText(cs) + Fragment(c)
    ensures Args(cs + [c]) == Args(cs) + [c.arg]
  {
    assert (cs + [c])[..|cs|] == cs;
  }

  // ---------------------------------------------------------------------------
  // Placeholders

  /** The number of `?` characters in a text. */
  function Placeholders(s: string): nat
  {
    if s == [] then 0 else (if s[0] == '?' then 1 else 0) + Placeholders(s[1..])
  }

  predicate NoPlaceholder(s: string)
  {
    forall i | 0 <= i < |s| :: s[i] != '?'
  }

  lemma {:induction false} PlaceholdersAppend(a: string, b: string)
    ensures Placeholders(a + b) == Placeholders(a) + Placeholders(b)
  {
    if a == [] {
      assert a + b == b;
    } else {
      assert (a + b)[0] == a[0];
      assert (a + b)[1..] == a[1..] + b;
      PlaceholdersAppend(a[1..], b);
    }
  }

  /** A `?`-free text in front adds no placeholder. */
  lemma PlaceholderFreePrefix(h: string, w: string)
    requires Placeholders(h) == 0
    ensures Placeholders(h + w) == Placeholders(w)
  {
    PlaceholdersAppend(h, w);
  }

  /** A `?`-free text behind adds no placeholder. */
  lemma PlaceholderFreeSuffix(w: string, t: string)
    requires Placeholders(t) == 0
    ensures Placeholders(w + t) == Placeholders(w)
  {
    PlaceholdersAppend(w, t);
  }

  lemma {:induction false} NoPlaceholderCount(s: string)
    requires NoPlaceholder(s)
    ensures Placeholders(s) == 0
  {
    if s != [] {
      NoPlaceholderCount(s[1..]);
    }
  }

  lemma NoPlaceholderAppend(a: string, b: string)
    requires NoPlaceholder(a) && NoPlaceholder(b)
    ensures NoPlaceholder(a + b)
  {
    forall i | 0 <= i < |a + b| ensures (a + b)[i] != '?' {
      if i >= |a| {
        assert (a + b)[i] == b[i - |a|];
      }
    }
  }

  lemma {:induction false} PlaceholderCountOne()
    ensures Placeholders("?") == 1
  {
    assert "?"[1..] == [];
  }

  /** Every fragment carries exactly one placeholder. */
  lemma FragmentPlaceholders(c: Cond)
    ensures Placeholders(Fragment(c)) == 1
  {
    var name, op := ColumnName(c.column), OpText(c.op);
    assert NoPlaceholder(" AND ");
    assert NoPlaceholder(name) by {
      match c.column
      case RequestMethod => assert NoPlaceholder("request_method");
      case RequestPath => assert NoPlaceholder("request_path");
      case ResponseStatus => assert NoPlaceholder("response_status");
      case SuccessFlag => assert NoPlaceholder("success");
      case CreatedAt => assert NoPlaceholder("created_at");
    }
    assert NoPlaceholder(op) by {
      match c.op
      case Eq => assert NoPlaceholder(" = ");
      case Like => assert NoPlaceholder(" LIKE ");
      case AtLeast => assert NoPlaceholder(" >= ");
      case AtMost => assert NoPlaceholder(" <= ");
    }
    NoPlaceholderCount(" AND ");
    NoPlaceholderCount(name);
    NoPlaceholderCount(op);
    PlaceholderCountOne();
    PlaceholdersAppend(" AND ", name);
    PlaceholdersAppend(" AND " + name, op);
    PlaceholdersAppend(" AND " + name + op, "?");
  }

  /** The clause holds exactly as many placeholders as there are bound parameters. */
  lemma {:induction false} WherePlaceholders(cs: seq<Cond>)
    ensures Placeholders(WhereText(cs)) == |Args(cs)|
    ensures Placeholders(Fragments(cs)) == |cs|
  {
    assert NoPlaceholder(WhereAll);
    NoPlaceholderCount(WhereAll);
    if cs != [] {
      WherePlaceholders(cs[..|cs| - 1]);
      FragmentPlaceholders(cs[|cs| - 1]);
      PlaceholdersAppend(Fragments(cs[..|cs| - 1]), Fragment(cs[|cs| - 1]));
    }
    PlaceholdersAppend(WhereAll, Fragments(cs));
  }

  /** A statement made of a `?`-free head, a clause and a `?`-free tail binds exactly the clause's
      parameters. */
  lemma StatementPlaceholders(head: string, cs: seq<Cond>, tail: string)
    requires Placeholders(head) == 0 && Placeholders(tail) == 0
    ensures Placeholders(head + WhereText(cs) + tail) == |Args(cs)|
  {
    WherePlaceholders(cs);
    PlaceholdersAppend(head, WhereText(cs));
    PlaceholdersAppend(head + WhereText(cs), tail);
  }

  /** A decimal integer printed into a statement adds no placeholder. */
  lemma DecimalHasNoPlaceholder(n: int)
    ensures Placeholders(Decimal(n)) == 0
  {
    var d := NatToString(if n < 0 then -n else n);
    assert NoPlaceholder(d);
    if n < 0 {
      assert NoPlaceholder(Decimal(n));
    }
    NoPlaceholderCount(Decimal(n));
  }

  lemma ExtendClause(head: string, added: seq<Cond>, c: Cond)
    ensures head + WhereText(added) + Fragment(c) == head + WhereText(added + [c])
    ensures Args(added) + [c.arg] == Args(added + [c])
  {
    WhereSnoc(added, c);
    assert head + WhereText(added) + Fragment(c) == head + (WhereText(added) + Fragment(c));
  }

  /** Appends one condition to a statement whose text so far ends with the clause of `added`. */
  method AddCondition(text: string, params: seq<Value>, ghost head: string, ghost added: seq<Cond>, c: Cond)
    returns (text': string, params': seq<Value>)
    requires text == head + WhereText(added) && params == Args(added)
    ensures text' == head + WhereText(added + [c]) && params' == Args(added + [c])
  {
    ExtendClause(head, added, c);
    text' := text + Fragment(c);
    params' := params + [c.arg];
  }

  /** The condition `c` when `present`, and nothing otherwise. */
  function When(present: bool, c: Cond): seq<Cond>
  {
    if present then [c] else []
  }

  /** `if (present) { text += fragment; params.push(value) }` */
  method AddWhen(present: bool, text: string, params: seq<Value>, ghost head: string, ghost added: seq<Cond>, c: Cond)
    returns (text': string, params': seq<Value>)
    requires text == head + WhereText(added) && params == Args(added)
    ensures text' == head + WhereText(added + When(present, c)) && params' == Args(added + When(present, c))
  {
    if present {
      text', params' := AddCondition(text, params, head, added, c);
    } else {
      text', params' := text, params;
      assert added + When(present, c) == added;
    }
  }

  // ---------------------------------------------------------------------------
  // Meaning of a condition for one stored row

  /** The columns of an `api_logs` row that the filters read (nullable columns as options). */
  datatype LogRow = LogRow(
    requestMethod: Option<string>,
    requestPath: Option<string>,
    responseStatus: Option<int>,
    success: Option<int>,
    duration: Option<int>,
    createdAt: string)

  /** MySQL `s LIKE p` with `\` as the escape character: `%` matches any run, `_` any one character,
      `\c` the character `c`, and every other character itself. */
  function LikeMatch(s: string, p: string): bool
    decreases |s| + |p|
  {
    if p == [] then s == []
    else if p[0] == '%' then LikeMatch(s, p[1..]) || (s != [] && LikeMatch(s[1..], p))
    else if p[0] == '\\' && |p| >= 2 then s != [] && s[0] == p[1] && LikeMatch(s[1..], p[2..])
    else if p[0] == '_' then s != [] && LikeMatch(s[1..], p[1..])
    else s != [] && s[0] == p[0] && LikeMatch(s[1..], p[1..])
  }

  /** Lexicographic order on timestamp texts: for the fixed-width `YYYY-MM-DD HH:MM:SS` form it is
      the order of the instants. */
  predicate TextLe(a: string, b: string)
  {
    if a == [] then true
    else if b == [] then false
    else if a[0] != b[0] then a[0] < b[0]
    else TextLe(a[1..], b[1..])
  }

  /** Whether a row satisfies one condition. A NULL column satisfies nothing. A NaN parameter is
      read as false here only to keep the predicate total: a statement that binds one fails before
      any row is read (see `Bindable`). */
  predicate Holds(row: LogRow, c: Cond)
  {
    match (c.column, c.op, c.arg)
    case (RequestMethod, Eq, Str(m)) => row.requestMethod == Some(m)
    case (RequestPath, Like, Str(p)) => row.requestPath.Some? && LikeMatch(row.requestPath.value, p)
    case (ResponseStatus, Eq, Num(n)) => row.responseStatus == Some(n)
    case (SuccessFlag, Eq, Num(n)) => row.success == Some(n)
    case (CreatedAt, AtLeast, Str(t)) => TextLe(t, row.createdAt)
    case (CreatedAt, AtMost, Str(t)) => TextLe(row.createdAt, t)
    case _ => false
  }

  /** The conjunction a WHERE clause built from `cs` selects. */
  predicate AllHold(row: LogRow, cs: seq<Cond>)
  {
    forall i :: 0 <= i < |cs| ==> Holds(row, cs[i])
  }

  // ---------------------------------------------------------------------------
  // LIKE '%x%' and substring search

  predicate IsSubstring(x: string, s: string)
  {
    exists k :: 0 <= k <= |s| && x <= s[k..]
  }

  /** A character that LIKE treats specially. */
  predicate IsLikeSpecial(c: char)
  {
    c == '%' || c == '_' || c == '\\'
  }

  predicate NoLikeSpecial(x: string)
  {
    forall i :: 0 <= i < |x| ==> !IsLikeSpecial(x[i])
  }

  /** Escapes every LIKE-special character with `\`, so that the pattern matches the text literally. */
  function EscapeLike(x: string): (e: string)
    ensures NoLikeSpecial(x) ==> e == x
  {
    if x == [] then []
    else (if IsLikeSpecial(x[0]) then ['\\', x[0]] else [x[0]]) + EscapeLike(x[1..])
  }

  lemma {:induction false} LikePercentMatchesAll(s: string)
    ensures LikeMatch(s, "%")
  {
    assert "%"[1..] == [];
    if s != [] {
      LikePercentMatchesAll(s[1..]);
    }
  }

  /** An escaped text followed by `%` matches exactly the strings that start with that text. */
  lemma {:induction false} LikeEscapedPrefix(s: string, x: string)
    ensures LikeMatch(s, EscapeLike(x) + "%") <==> x <= s
  {
    if x == [] {
      assert EscapeLike(x) + "%" == "%";
      LikePercentMatchesAll(s);
    } else {
      var p := EscapeLike(x) + "%";
      var rest := EscapeLike(x[1..]) + "%";
      if IsLikeSpecial(x[0]) {
        assert p == ['\\', x[0]] + rest;
        assert p[0] == '\\' && p[1] == x[0] && p[2..] == rest;
      } else {
        assert p == [x[0]] + rest;
        assert p[0] == x[0] && p[1..] == rest;
      }
      if s != [] {
        LikeEscapedPrefix(s[1..], x[1..]);
        assert (x <= s) <==> (s[0] == x[0] && x[1..] <= s[1..]);
      }
    }
  }

  /** A leading `%` lets the rest of the pattern match any suffix. */
  lemma {:induction false} LikeLeadingPercent(s: string, q: string)
    ensures LikeMatch(s, "%" + q) <==> exists k :: 0 <= k <= |s| && LikeMatch(s[k..], q)
    decreases |s|
  {
    var p := "%" + q;
    assert p[0] == '%' && p[1..] == q;
    if s == [] {
      assert s[0..] == s;
    } else {
      LikeLeadingPercent(s[1..], q);
      assert s[0..] == s;
      if LikeMatch(s[1..], p) {
        var k :| 0 <= k <= |s[1..]| && LikeMatch(s[1..][k..], q);
        assert s[1..][k..] == s[k + 1..];
      }
      if exists k :: 0 <= k <= |s| && LikeMatch(s[k..], q) {
        var k :| 0 <= k <= |s| && LikeMatch(s[k..], q);
        if k > 0 {
          assert s[1..][k - 1..] == s[k..];
        }
      }
    }
  }

  /** `LIKE '%' + escaped(x) + '%'` is substring search for `x`. */
  lemma LikeContainsEscaped(s: string, x: string)
    ensures LikeMatch(s, "%" + EscapeLike(x) + "%") <==> IsSubstring(x, s)
  {
    assert "%" + EscapeLike(x) + "%" == "%" + (EscapeLike(x) + "%");
    LikeLeadingPercent(s, EscapeLike(x) + "%");
    forall k | 0 <= k <= |s|
      ensures LikeMatch(s[k..], EscapeLike(x) + "%") <==> x <= s[k..]
    {
      LikeEscapedPrefix(s[k..], x);
    }
  }

  /** Without special characters, `LIKE '%x%'` is substring search for `x`. */
  lemma LikeContains(s: string, x: string)
    requires NoLikeSpecial(x)
    ensures LikeMatch(s, "%" + x + "%") <==> IsSubstring(x, s)
  {
    LikeContainsEscaped(s, x);
  }

  /** `_` matches any one character: the pattern `%a_c%` matches `abc`. */
  lemma UnderscoreMatchesAnyCharacter()
    ensures LikeMatch("abc", "%a_c%")
  {
    assert "%"[1..] == [];
    assert LikeMatch("", "%");
    assert LikeMatch("c", "c%") by {
      assert "c%"[1..] == "%";
    }
    assert LikeMatch("bc", "_c%") by {
      assert "_c%"[1..] == "c%";
      assert "bc"[1..] == "c";
    }
    assert LikeMatch("abc", "a_c%") by {
      assert "a_c%"[1..] == "_c%";
      assert "abc"[1..] == "bc";
    }
    assert "%a_c%"[1..] == "a_c%";
  }

  /** `abc` does not contain the text `a_c`. */
  lemma PlainPathNotInRow()
    ensures !IsSubstring("a_c", "abc")
  {
    var x := "a_c";
    forall k | 0 <= k <= 3 ensures !(x <= "abc"[k..]) {
      if k < 3 {
        assert "abc"[k..][0] == "abc"[k];
        if k == 0 {
          assert "abc"[k..][1] == 'b' != x[1];
        }
      }
    }
  }
}
