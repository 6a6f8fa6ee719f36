/** The routes of the audit log (`/activity-logs`): the four-filter list with its
    limit, and the parameters of a new entry. */
module ActivityLogRoutes {
  import opened Common
  import opened Strings
  import opened Sql

  // ---- GET /activity-logs ----

  /** The filters a request may carry. */
  datatype LogFilter = LogFilter(tenantId: Option<int>, userId: Option<int>, entity: Option<string>, entityId: Option<int>)

  function ListCandidate(f: LogFilter, k: nat): Candidate<Condition>
  {
    match k
    case 0 => Candidate(TruthyInt(f.tenantId), Condition("a.tenant_id", IntOrNull(f.tenantId)))
    case 1 => Candidate(TruthyInt(f.userId), Condition("a.user_id", IntOrNull(f.userId)))
    case 2 => Candidate(TruthyStr(f.entity), Condition("a.entity", TextOrNull(f.entity)))
    case _ => Candidate(TruthyInt(f.entityId), Condition("a.entity_id", IntOrNull(f.entityId)))
  }

  /** The filters in the order the route tests them, each when truthy. */
  function ListCandidates(f: LogFilter): nat -> Candidate<Condition>
  {
    (k: nat) => ListCandidate(f, k)
  }

  const DefaultLimit := 100

  /** The list query: a condition per truthy filter, newest entry first, at most
      `limit` rows (100 when the parameter is absent); the limit is written into the
      text, not bound. */
  method ListActivityLogs(f: LogFilter, limit: Option<int>) returns (st: Statement)
    ensures st == SelectStatement("activity_logs a", Collected(ListCandidates(f), 4), "a.created_at DESC",
                                  Some(limit.GetOr(DefaultLimit)))
    ensures WellFormed(st)
  {
    var n := limit.GetOr(DefaultLimit);
    var conds: seq<Condition> := [];
    if TruthyInt(f.tenantId) {
      conds := conds + [Condition("a.tenant_id", Int(f.tenantId.value))];
    }
    assert conds == Collected(ListCandidates(f), 1);
    if TruthyInt(f.userId) {
      conds := conds + [Condition("a.user_id", Int(f.userId.value))];
    }
    assert conds == Collected(ListCandidates(f), 2);
    if TruthyStr(f.entity) {
      conds := conds + [Condition("a.entity", Text(f.entity.value))];
    }
    assert conds == Collected(ListCandidates(f), 3);
    if TruthyInt(f.entityId) {
      conds := conds + [Condition("a.entity_id", Int(f.entityId.value))];
    }
    assert conds == Collected(ListCandidates(f), 4);
    st := SelectStatement("activity_logs a", conds, "a.created_at DESC", Some(n));
    ListWellFormed(f, n);
  }

  lemma ListWellFormed(f: LogFilter, n: int)
    ensures WellFormed(SelectStatement("activity_logs a", Collected(ListCandidates(f), 4), "a.created_at DESC", Some(n)))
  {
    PlainName("a.tenant_id");
    PlainName("a.user_id");
    PlainName("a.entity");
    PlainName("a.entity_id");
    forall k | 0 <= k < 4
      ensures NoPercent(ListCandidates(f)(k).item.column)
    {
      match k
      case 0 => case 1 => case 2 => case _ =>
    }
    FilterWellFormed("activity_logs a", ListCandidates(f), 4, "a.created_at DESC", Some(n));
  }

  /** With every filter truthy the bound values are tenant, user, entity and entity id,
      in that order; the limit is never among them. */
  lemma ListParamsOrder(f: LogFilter, n: int)
    requires TruthyInt(f.tenantId) && TruthyInt(f.userId) && TruthyStr(f.entity) && TruthyInt(f.entityId)
    ensures SelectStatement("activity_logs a", Collected(ListCandidates(f), 4), "a.created_at DESC", Some(n)).params ==
      [Int(f.tenantId.value), Int(f.userId.value), Text(f.entity.value), Int(f.entityId.value)]
  {
    var cand := ListCandidates(f);
    assert cand(0).present && cand(1).present && cand(2).present && cand(3).present;
    var conds := Collected(cand, 4);
    assert conds == [cand(0).item, cand(1).item, cand(2).item, cand(3).item];
  }

  /** An id filter of 0 filters nothing, since the test is truthiness. */
  lemma ZeroIdIsNoFilter(f: LogFilter)
    ensures Collected(ListCandidates(f.(tenantId := Some(0), entityId := Some(0))), 4) ==
            Collected(ListCandidates(f.(tenantId := None, entityId := None)), 4)
  {
    var a := ListCandidates(f.(tenantId := Some(0), entityId := Some(0)));
    var b := ListCandidates(f.(tenantId := None, entityId := None));
    assert a(0).present == b(0).present == false;
    assert a(1) == b(1) && a(2) == b(2);
    assert a(3).present == b(3).present == false;
    assert Collected(a, 3) == Collected(b, 3);
  }

  // ---- POST /activity-logs ----

  /** A JSON object of the request, keys to already-serialised values. */
  type Details = map<string, string>

  /** The request body of a new entry. */
  datatype ActivityLogCreate = ActivityLogCreate(
    tenantId: Option<int>,
    userId: Option<int>,
    entity: string,
    entityId: int,
    action: string,
    details: Option<Details>)

  /** The parameters of the INSERT; `dumps` stands for `json.dumps`. The details are
      serialised only when they are truthy (present and not empty) and stored as
      NULL otherwise. */
  function LogParams(log: ActivityLogCreate, dumps: Details -> string): (ps: seq<SqlValue>)
    ensures |ps| == 6
    ensures ps[0] == IntOrNull(log.tenantId) && ps[1] == IntOrNull(log.userId)
    ensures ps[2] == Text(log.entity) && ps[3] == Int(log.entityId) && ps[4] == Text(log.action)
    ensures ps[5].JsonText? <==> log.details.Some? && |log.details.value| > 0
    ensures ps[5].JsonText? ==> ps[5].json == dumps(log.details.value)
    ensures !ps[5].JsonText? ==> ps[5] == Null
  {
    var detailsJson := if log.details.Some? && |log.details.value| > 0 then JsonText(dumps(log.details.value)) else Null;
    [IntOrNull(log.tenantId), IntOrNull(log.userId), Text(log.entity), Int(log.entityId), Text(log.action), detailsJson]
  }

  /** The reply of the creation: every failure is answered with 500. */
  function CreateActivityLog(ran: Inserted): (r: Result<int>)
    ensures r.Success? <==> ran.Inserted?
    ensures ran.Rejected? ==> r == Failure(HttpError(500, "Failed to create activity log: " + ran.message))
  {
    Created(ran, None, None, "Failed to create activity log: ")
  }
}
