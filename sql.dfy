/** The shape of the SQL the backend routes send: UPDATE statements assembled
    from optional-field requests and SELECT statements extended with filter
    conditions. Each `%s` in the text is a placeholder that the driver binds to
    the next parameter, so a statement is well formed when the text holds exactly
    as many placeholders as there are parameters. Layout whitespace of the
    original query strings is normalised to single spaces; the selected column
    lists, joins and RETURNING lists, which hold no placeholder, are not rendered. */
module Sql {
  import opened Common
  import opened Strings

  /** A parameter value. Dates and timestamps are abstract: `iso` is their ISO text. */
  datatype SqlValue =
    | Null
    | Int(i: int)
    | Text(s: string)
    | Date(iso: string)
    | Timestamp(iso: string)
    | Digest(plain: string)      // the SHA-256 hex digest of `plain`
    | JsonText(json: string)     // the output of `json.dumps`

  /** An optional string as a parameter: None binds NULL. */
  function TextOrNull(s: Option<string>): SqlValue
  {
    if s.Some? then Text(s.value) else Null
  }

  function IntOrNull(n: Option<int>): SqlValue
  {
    if n.Some? then Int(n.value) else Null
  }

  // ---- placeholders ----

  /** Number of `%s` placeholders, scanning left to right. */
  function CountPlaceholders(s: string): nat
    decreases |s|
  {
    if |s| < 2 then 0
    else if s[0] == '%' && s[1] == 's' then 1 + CountPlaceholders(s[2..])
    else CountPlaceholders(s[1..])
  }

  predicate NoPercent(s: string)
  {
    forall k :: 0 <= k < |s| ==> s[k] != '%'
  }

  /** The cheap way to establish NoPercent for a literal column name. */
  lemma PlainName(s: string)
    requires '%' !in s
    ensures NoPercent(s)
  {
  }

  lemma {:induction false} NoPercentNoPlaceholder(s: string)
    requires NoPercent(s)
    ensures CountPlaceholders(s) == 0
    decreases |s|
  {
    if |s| >= 2 {
      NoPercentNoPlaceholder(s[1..]);
    }
  }

  /** Counting splits over a concatenation unless a placeholder straddles the seam. */
  lemma {:induction false} CountConcat(a: string, b: string)
    requires a == [] || a[|a| - 1] != '%' || b == [] || b[0] != 's'
    ensures CountPlaceholders(a + b) == CountPlaceholders(a) + CountPlaceholders(b)
    decreases |a|
  {
    if |a| == 0 {
      assert a + b == b;
    } else if |a| == 1 {
      if |b| > 0 {
        assert (a + b)[1..] == b;
      }
    } else if a[0] == '%' && a[1] == 's' {
      assert (a + b)[2..] == a[2..] + b;
      CountConcat(a[2..], b);
    } else {
      assert (a + b)[1..] == a[1..] + b;
      CountConcat(a[1..], b);
    }
  }

  lemma OnePlaceholder(p: string)
    requires NoPercent(p)
    ensures CountPlaceholders(p + "%s") == 1
  {
    CountConcat(p, "%s");
    NoPercentNoPlaceholder(p);
  }

  // ---- UPDATE statements ----

  /** One SET item: `column = %s` bound to `value`, or `column = CURRENT_TIMESTAMP`.
      A change pairs the clause appended to the route's `updates` list with the
      parameter appended, at the same step, to its `params` list. */
  datatype Change = Set(column: string, value: SqlValue) | SetNow(column: string)

  function ClauseText(c: Change): string
  {
    match c
    case Set(col, _) => col + " = %s"
    case SetNow(col) => col + " = CURRENT_TIMESTAMP"
  }

  /** The parameters of a list of changes, in order. */
  function Values(cs: seq<Change>): (vs: seq<SqlValue>)
    ensures |vs| <= |cs|
  {
    if cs == [] then []
    else (if cs[0].Set? then [cs[0].value] else []) + Values(cs[1..])
  }

  function Columns(cs: seq<Change>): (cols: seq<string>)
    ensures |cols| == |cs|
    ensures forall k :: 0 <= k < |cs| ==> cols[k] == cs[k].column
  {
    seq(|cs|, k requires 0 <= k < |cs| => cs[k].column)
  }

  /** `', '.join(updates)`. */
  function JoinClauses(cs: seq<Change>): string
  {
    if cs == [] then ""
    else if |cs| == 1 then ClauseText(cs[0])
    else ClauseText(cs[0]) + ", " + JoinClauses(cs[1..])
  }

  predicate SafeColumns(cs: seq<Change>)
  {
    forall k :: 0 <= k < |cs| ==> NoPercent(cs[k].column)
  }

  lemma ClausePlaceholders(c: Change)
    requires NoPercent(c.column)
    ensures CountPlaceholders(ClauseText(c)) == (if c.Set? then 1 else 0)
    ensures ClauseText(c) != [] && ClauseText(c)[|ClauseText(c)| - 1] != '%'
  {
    match c
    case Set(col, _) =>
      assert col + " = %s" == (col + " = ") + "%s";
      OnePlaceholder(col + " = ");
    case SetNow(col) =>
      NoPercentNoPlaceholder(col + " = CURRENT_TIMESTAMP");
  }

  /** The joined clauses hold one placeholder per parameter. */
  lemma {:induction false} JoinPlaceholders(cs: seq<Change>)
    requires SafeColumns(cs)
    ensures CountPlaceholders(JoinClauses(cs)) == |Values(cs)|
    ensures EndsSafe(JoinClauses(cs))
    decreases |cs|
  {
    if cs == [] {
    } else if |cs| == 1 {
      ClausePlaceholders(cs[0]);
      assert Values(cs) == (if cs[0].Set? then [cs[0].value] else []) + Values(cs[1..]);
    } else {
      JoinPlaceholders(cs[1..]);
      JoinHead(cs[0], JoinClauses(cs[1..]));
      assert JoinClauses(cs) == ClauseText(cs[0]) + ", " + JoinClauses(cs[1..]);
    }
  }

  /** One clause and its separator in front of the rest of the list. */
  lemma JoinHead(c: Change, rest: string)
    requires NoPercent(c.column) && EndsSafe(rest)
    ensures CountPlaceholders(ClauseText(c) + ", " + rest) == (if c.Set? then 1 else 0) + CountPlaceholders(rest)
    ensures EndsSafe(ClauseText(c) + ", " + rest)
  {
    ClausePlaceholders(c);
    CountConcat(ClauseText(c), ", ");
    NoPercentNoPlaceholder(", ");
    CountConcat(ClauseText(c) + ", ", rest);
    var all := ClauseText(c) + ", " + rest;
    if rest != [] {
      assert all[|all| - 1] == rest[|rest| - 1];
    }
  }

  /** The text and parameters a route sends to the driver. */
  datatype Statement = Statement(sql: string, params: seq<SqlValue>)

  /** Equal numbers of placeholders and parameters. */
  predicate WellFormed(st: Statement)
  {
    CountPlaceholders(st.sql) == |st.params|
  }

  /** `UPDATE table SET <clauses> WHERE id = %s` with the id bound last. */
  function UpdateStatement(table: string, cs: seq<Change>, id: SqlValue): Statement
  {
    Statement("UPDATE " + table + " SET " + JoinClauses(cs) + " WHERE id = %s", Values(cs) + [id])
  }

  /** The key invariant of every update builder: one placeholder per parameter, the id included. */
  lemma UpdateWellFormed(table: string, cs: seq<Change>, id: SqlValue)
    requires NoPercent(table) && SafeColumns(cs)
    ensures WellFormed(UpdateStatement(table, cs, id))
    ensures UpdateStatement(table, cs, id).params[|Values(cs)|] == id
  {
    var head := "UPDATE " + table + " SET ";
    UpdateHead(table);
    var join := JoinClauses(cs);
    JoinPlaceholders(cs);
    var where := " WHERE id = %s";
    WherePlaceholder();
    ChainCount(head, join, where, "");
    assert UpdateStatement(table, cs, id).sql == head + join + where + "";
  }

  lemma UpdateHead(table: string)
    requires NoPercent(table)
    ensures var head := "UPDATE " + table + " SET ";
      NoPercent(head) && head != [] && head[|head| - 1] == ' '
  {
    NoPercentConcat3("UPDATE ", table, " SET ");
  }

  lemma NoPercentConcat3(a: string, b: string, c: string)
    requires NoPercent(a) && NoPercent(b) && NoPercent(c)
    ensures NoPercent(a + b + c)
  {
  }

  lemma WherePlaceholder()
    ensures CountPlaceholders(" WHERE id = %s") == 1
  {
    assert " WHERE id = %s" == " WHERE id = " + "%s";
    OnePlaceholder(" WHERE id = ");
  }

  predicate EndsSafe(s: string)
  {
    s == [] || s[|s| - 1] != '%'
  }

  /** Counting over `p + m + q + r`, where the placeholder-free prefix `p` ends in a space,
      `m` does not end in '%', `q` starts with a space and `r` has no '%'. */
  lemma ChainCount(p: string, m: string, q: string, r: string)
    requires NoPercent(p) && p != [] && p[|p| - 1] == ' '
    requires EndsSafe(m)
    requires q != [] && q[0] == ' ' && q[|q| - 1] != '%'
    requires NoPercent(r)
    ensures CountPlaceholders(p + m + q + r) == CountPlaceholders(m) + CountPlaceholders(q)
  {
    NoPercentNoPlaceholder(p);
    NoPercentNoPlaceholder(r);
    CountConcat(p, m);
    var pm := p + m;
    assert EndsSafe(pm) by {
      if m == [] { assert pm == p; } else { assert pm[|pm| - 1] == m[|m| - 1]; }
    }
    CountConcat(pm, q);
    var pmq := pm + q;
    assert pmq[|pmq| - 1] == q[|q| - 1];
    CountConcat(pmq, r);
  }

  // ---- SELECT statements with filters ----

  /** A filter: ` AND column = %s` bound to `value`. */
  datatype Condition = Condition(column: string, value: SqlValue)

  function ConditionsText(conds: seq<Condition>): string
  {
    if conds == [] then "" else " AND " + conds[0].column + " = %s" + ConditionsText(conds[1..])
  }

  function ConditionValues(conds: seq<Condition>): (vs: seq<SqlValue>)
    ensures |vs| == |conds|
    ensures forall k :: 0 <= k < |conds| ==> vs[k] == conds[k].value
  {
    seq(|conds|, k requires 0 <= k < |conds| => conds[k].value)
  }

  predicate SafeConditions(conds: seq<Condition>)
  {
    forall k :: 0 <= k < |conds| ==> NoPercent(conds[k].column)
  }

  lemma {:induction false} ConditionsPlaceholders(conds: seq<Condition>)
    requires SafeConditions(conds)
    ensures CountPlaceholders(ConditionsText(conds)) == |conds|
    ensures ConditionsText(conds) == [] || ConditionsText(conds)[|ConditionsText(conds)| - 1] != '%'
    decreases |conds|
  {
    if conds != [] {
      var one := " AND " + conds[0].column + " = %s";
      assert one == (" AND " + conds[0].column + " = ") + "%s";
      OnePlaceholder(" AND " + conds[0].column + " = ");
      ConditionsPlaceholders(conds[1..]);
      CountConcat(one, ConditionsText(conds[1..]));
      assert ConditionsText(conds) == one + ConditionsText(conds[1..]);
    }
  }

  /** `SELECT … FROM source WHERE 1=1` extended by the conditions, then the ordering, then an
      optional `LIMIT n` written into the text; the parameters are the condition values. */
  function SelectStatement(source: string, conds: seq<Condition>, order: string, limit: Option<int>): Statement
  {
    Statement(SelectHead(source) + ConditionsText(conds) + " ORDER BY " + order + LimitText(limit),
              ConditionValues(conds))
  }

  /** The key invariant of every filter builder: one placeholder per parameter. */
  lemma SelectWellFormed(source: string, conds: seq<Condition>, order: string, limit: Option<int>)
    requires NoPercent(source) && NoPercent(order) && SafeConditions(conds)
    ensures WellFormed(SelectStatement(source, conds, order, limit))
  {
    var base := SelectHead(source);
    var ord := " ORDER BY " + order;
    FramingNoPercent(source, order);
    var c := ConditionsText(conds);
    ConditionsPlaceholders(conds);
    var tail := LimitText(limit);
    LimitPlaceholders(limit);
    SelectCount(base, c, ord, tail);
    assert SelectStatement(source, conds, order, limit).sql == base + c + ord + tail;
  }

  function SelectHead(source: string): string
  {
    "SELECT … FROM " + source + " WHERE 1=1"
  }

  /** The limit is interpolated as Python `str(limit)`, not bound as a parameter. */
  function LimitText(limit: Option<int>): string
  {
    if limit.Some? then " LIMIT " + IntToString(limit.value) else ""
  }

  lemma FramingNoPercent(source: string, order: string)
    requires NoPercent(source) && NoPercent(order)
    ensures NoPercent(SelectHead(source)) && NoPercent(" ORDER BY " + order)
  {
    NoPercentConcat3("SELECT … FROM ", source, " WHERE 1=1");
    NoPercentConcat3(" ORDER BY ", order, "");
    assert " ORDER BY " + order == " ORDER BY " + order + "";
  }

  lemma LimitPlaceholders(limit: Option<int>)
    ensures NoPercent(LimitText(limit))
    ensures CountPlaceholders(LimitText(limit)) == 0
  {
    if limit.Some? {
      var digits := IntToString(limit.value);
      assert NoPercent(digits) by {
        forall k | 0 <= k < |digits| ensures digits[k] != '%' {
          assert IsDigit(digits[k]) || digits[k] == '-';
        }
      }
      PlainName(" LIMIT ");
      NoPercentConcat3(" LIMIT ", digits, "");
      assert LimitText(limit) == " LIMIT " + digits + "";
    }
    NoPercentNoPlaceholder(LimitText(limit));
  }

  lemma SelectCount(base: string, c: string, order: string, tail: string)
    requires NoPercent(base) && NoPercent(order) && EndsSafe(c) && NoPercent(tail)
    ensures CountPlaceholders(base + c + order + tail) == CountPlaceholders(c)
  {
    NoPercentNoPlaceholder(base);
    NoPercentNoPlaceholder(order);
    CountConcat(base, c);
    var bc := base + c;
    assert EndsSafe(bc) by {
      if c != [] { assert bc[|bc| - 1] == c[|c| - 1]; } else { assert bc == base; }
    }
    CountConcat(bc, order);
    var bco := bc + order;
    assert EndsSafe(bco) by {
      if order != [] { assert bco[|bco| - 1] == order[|order| - 1]; } else { assert bco == bc; }
    }
    NoPercentNoPlaceholder(tail);
    CountConcat(bco, tail);
  }

  /** `SELECT … FROM source WHERE column = %s`, a lookup by one column. */
  function LookupStatement(source: string, column: string, v: SqlValue): Statement
  {
    Statement("SELECT … FROM " + source + " WHERE " + column + " = %s", [v])
  }

  /** `SELECT … FROM source`, every row. */
  function ScanStatement(source: string): Statement
  {
    Statement("SELECT … FROM " + source, [])
  }

  lemma LookupWellFormed(source: string, column: string, v: SqlValue)
    requires NoPercent(source) && NoPercent(column)
    ensures WellFormed(LookupStatement(source, column, v))
  {
    var p := "SELECT … FROM " + source + " WHERE " + column + " = ";
    assert NoPercent(p) by {
      NoPercentConcat3("SELECT … FROM ", source, " WHERE ");
      NoPercentConcat3("SELECT … FROM " + source + " WHERE ", column, " = ");
    }
    OnePlaceholder(p);
    assert LookupStatement(source, column, v).sql == p + "%s";
  }

  lemma ScanWellFormed(source: string)
    requires NoPercent(source)
    ensures WellFormed(ScanStatement(source))
  {
    NoPercentConcat3("SELECT … FROM ", source, "");
    assert "SELECT … FROM " + source + "" == "SELECT … FROM " + source;
    NoPercentNoPlaceholder("SELECT … FROM " + source);
  }

  /** `DELETE FROM table WHERE id = %s` with the id bound. */
  function DeleteStatement(table: string, id: SqlValue): Statement
  {
    Statement("DELETE FROM " + table + " WHERE id = %s", [id])
  }

  lemma DeleteWellFormed(table: string, id: SqlValue)
    requires NoPercent(table)
    ensures WellFormed(DeleteStatement(table, id))
  {
    var p := "DELETE FROM " + table + " WHERE id = ";
    PlainName("DELETE FROM ");
    PlainName(" WHERE id = ");
    NoPercentConcat3("DELETE FROM ", table, " WHERE id = ");
    OnePlaceholder(p);
    assert DeleteStatement(table, id).sql == p + "%s";
  }

  // ---- field-by-field builders ----

  /** One step of a builder: `if <present>: items.append(item)`. */
  datatype Candidate<T> = Candidate(present: bool, item: T)

  function Pick<T>(c: Candidate<T>): seq<T>
  {
    if c.present then [c.item] else []
  }

  /** The list left by the steps for candidates 0 .. n-1, taken in that order. */
  function Collected<T>(cand: nat -> Candidate<T>, n: nat): seq<T>
  {
    if n == 0 then [] else Collected(cand, n - 1) + Pick(cand(n - 1))
  }

  /** The list is empty exactly when no candidate is present. */
  lemma {:induction false} CollectedEmpty<T>(cand: nat -> Candidate<T>, n: nat)
    ensures Collected(cand, n) == [] <==> forall k :: 0 <= k < n ==> !cand(k).present
  {
    if n > 0 {
      CollectedEmpty(cand, n - 1);
    }
  }

  /** An item is in the list exactly when some present candidate carries it. */
  lemma {:induction false} CollectedMember<T>(cand: nat -> Candidate<T>, n: nat, x: T)
    ensures x in Collected(cand, n) <==> exists k :: 0 <= k < n && cand(k).present && cand(k).item == x
  {
    if n > 0 {
      CollectedMember(cand, n - 1, x);
      if cand(n - 1).present && cand(n - 1).item == x {
        assert x in Collected(cand, n);
      }
    }
  }

  /** Items of earlier candidates come before items of later ones: what the first
      m steps leave is a prefix of what all n steps leave. */
  lemma {:induction false} CollectedPrefix<T>(cand: nat -> Candidate<T>, m: nat, n: nat)
    requires m <= n
    ensures Collected(cand, m) <= Collected(cand, n)
    ensures |Collected(cand, n)| <= |Collected(cand, m)| + (n - m)
  {
    if m < n {
      CollectedPrefix(cand, m, n - 1);
    }
  }

  /** A property every candidate item has is a property of every listed item. */
  lemma {:induction false} CollectedAll<T>(cand: nat -> Candidate<T>, n: nat, p: T -> bool)
    requires forall k :: 0 <= k < n ==> p(cand(k).item)
    ensures forall x :: x in Collected(cand, n) ==> p(x)
  {
    if n > 0 {
      CollectedAll(cand, n - 1, p);
    }
  }

  /** Changes from candidates whose columns are free of '%' render safely. */
  lemma CollectedSafe(cand: nat -> Candidate<Change>, n: nat)
    requires forall k :: 0 <= k < n ==> NoPercent(cand(k).item.column)
    ensures SafeColumns(Collected(cand, n))
  {
    CollectedAll(cand, n, (c: Change) => NoPercent(c.column));
    var cs := Collected(cand, n);
    forall k | 0 <= k < |cs|
      ensures NoPercent(cs[k].column)
    {
      assert cs[k] in cs;
    }
  }

  lemma CollectedSafeConditions(cand: nat -> Candidate<Condition>, n: nat)
    requires forall k :: 0 <= k < n ==> NoPercent(cand(k).item.column)
    ensures SafeConditions(Collected(cand, n))
  {
    CollectedAll(cand, n, (c: Condition) => NoPercent(c.column));
    var cs := Collected(cand, n);
    forall k | 0 <= k < |cs|
      ensures NoPercent(cs[k].column)
    {
      assert cs[k] in cs;
    }
  }

  /** A filtered SELECT whose candidate columns are free of '%' is well formed. */
  lemma FilterWellFormed(source: string, cand: nat -> Candidate<Condition>, n: nat, order: string, limit: Option<int>)
    requires NoPercent(source) && NoPercent(order)
    requires forall k :: 0 <= k < n ==> NoPercent(cand(k).item.column)
    ensures WellFormed(SelectStatement(source, Collected(cand, n), order, limit))
  {
    CollectedSafeConditions(cand, n);
    SelectWellFormed(source, Collected(cand, n), order, limit);
  }

  /** With no CURRENT_TIMESTAMP item, there is one parameter per change. */
  lemma {:induction false} ValuesOfSets(cs: seq<Change>)
    requires forall k :: 0 <= k < |cs| ==> cs[k].Set?
    ensures |Values(cs)| == |cs|
    ensures forall k :: 0 <= k < |cs| ==> Values(cs)[k] == cs[k].value
  {
    if cs != [] {
      ValuesOfSets(cs[1..]);
      assert Values(cs) == [cs[0].value] + Values(cs[1..]);
    }
  }

  /** A date or timestamp string from a request together with what parsing it gave
      (`strptime(…, "%Y-%m-%d")` or `datetime.fromisoformat`): the ISO text of the
      parsed value, or None when parsing raised ValueError. */
  datatype DateInput = DateInput(raw: string, parsed: Option<string>)

  const NoFieldsToUpdate := HttpError(400, "No fields to update")

  // ---- outcomes of running a statement ----

  /** What running a statement gave: the returned row (`fetchone()`), no row, or an
      exception carrying a message. */
  datatype Outcome<T> = Row(value: T) | NoRow | Raised(message: string)

  /** The reply of a route once its UPDATE or DELETE … RETURNING has run: its success
      message when a row came back, 404 with `notFound` when none did, and 500 with
      `failure` followed by the exception text when the statement raised. The fields
      the route echoes from the returned row are not modelled. */
  function Reply<T>(ran: Outcome<T>, notFound: string, failure: string, message: string): (r: Result<string>)
    ensures r.Success? <==> ran.Row?
    ensures r.Success? ==> r.value == message
    ensures ran.NoRow? ==> r.error == HttpError(404, notFound)
    ensures ran.Raised? ==> r.error == HttpError(500, failure + ran.message)
  {
    match ran
    case Row(_) => Success(message)
    case NoRow => Failure(HttpError(404, notFound))
    case Raised(e) => Failure(HttpError(500, failure + e))
  }

  /** The reply of an update route that answers with the returned row itself. */
  function Echo<T>(ran: Outcome<T>, notFound: string, failure: string): (r: Result<T>)
    ensures r.Success? <==> ran.Row?
    ensures r.Success? ==> r.value == ran.value
    ensures ran.NoRow? ==> r.error == HttpError(404, notFound)
    ensures ran.Raised? ==> r.error == HttpError(500, failure + ran.message)
  {
    match ran
    case Row(row) => Success(row)
    case NoRow => Failure(HttpError(404, notFound))
    case Raised(e) => Failure(HttpError(500, failure + e))
  }

  /** The common tail of every update route: 400 before any SQL when the builder
      collected nothing; otherwise the id is bound last, the statement is sent and
      the route answers `reply`, what running it gave. */
  method SendUpdate<R>(table: string, updates: seq<Change>, id: SqlValue, reply: Result<R>)
    returns (sent: Option<Statement>, r: Result<R>)
    ensures updates == [] ==> sent == None && r == Failure(NoFieldsToUpdate)
    ensures updates != [] ==> sent == Some(UpdateStatement(table, updates, id)) && r == reply
    ensures sent.Some? ==> sent.value.params[|sent.value.params| - 1] == id
    ensures sent.Some? && NoPercent(table) && SafeColumns(updates) ==> WellFormed(sent.value)
  {
    if updates == [] {
      return None, Failure(NoFieldsToUpdate);
    }
    if NoPercent(table) && SafeColumns(updates) {
      UpdateWellFormed(table, updates, id);
    }
    sent := Some(UpdateStatement(table, updates, id));
    r := reply;
  }

  /** A request field with a default: None when the key is absent from the JSON body
      (the default applies), Some(v) when it is sent, an explicit null included. */
  function WithDefault<T>(sent: Option<Option<T>>, default: T): (v: Option<T>)
    ensures sent.None? ==> v == Some(default)
    ensures sent.Some? ==> v == sent.value
  {
    if sent.None? then Some(default) else sent.value
  }

  // ---- INSERT … RETURNING ----

  /** What an INSERT … RETURNING gave: the new row's id, or the exception the
      driver raised (constraint violations among them) with its message. */
  datatype Inserted = Inserted(id: int) | Rejected(message: string)

  /** `"unique constraint" in str(e).lower()` */
  predicate UniqueViolation(message: string)
  {
    Contains(Lower(message), "unique constraint")
  }

  /** `"foreign key" in str(e).lower()` */
  predicate ForeignKeyViolation(message: string)
  {
    Contains(Lower(message), "foreign key")
  }

  /** The exception handler of a create route: a unique violation answers 400 with
      `unique` when the route tests for one; then a foreign-key violation answers 400
      with `foreignKey` when the route tests for one; anything else answers 500 with
      `failure` followed by the message. */
  function CreateFailure(message: string, unique: Option<string>, foreignKey: Option<string>, failure: string): (e: HttpError)
    ensures e.code == 400 <==>
      (unique.Some? && UniqueViolation(message)) || (foreignKey.Some? && ForeignKeyViolation(message))
    ensures e.code != 400 ==> e == HttpError(500, failure + message)
    ensures unique.Some? && UniqueViolation(message) ==> e.detail == unique.value
    ensures !(unique.Some? && UniqueViolation(message)) && foreignKey.Some? && ForeignKeyViolation(message) ==>
      e.detail == foreignKey.value
  {
    if unique.Some? && UniqueViolation(message) then HttpError(400, unique.value)
    else if foreignKey.Some? && ForeignKeyViolation(message) then HttpError(400, foreignKey.value)
    else HttpError(500, failure + message)
  }

  /** The reply of a create route: the new id, or the mapped error after the rollback. */
  function Created(ran: Inserted, unique: Option<string>, foreignKey: Option<string>, failure: string): (r: Result<int>)
    ensures r.Success? <==> ran.Inserted?
    ensures ran.Inserted? ==> r.value == ran.id
    ensures ran.Rejected? ==> r.error == CreateFailure(ran.message, unique, foreignKey, failure)
  {
    match ran
    case Inserted(id) => Success(id)
    case Rejected(m) => Failure(CreateFailure(m, unique, foreignKey, failure))
  }
}
