/**
 * The user-quota admin page: the single-row delete link, the two bulk
 * action dropdowns, the edit form, the CSV export and the statistics
 * shown above the list.
 *
 * The quota table is `QuotaTable.rows`; `check_admin_referer` is the
 * oracle `refererOk`, which sees the id the nonce was made for, and the
 * database's conversion of a posted date to a DATE value is `toDate`.
 */
module UserQuotasAdmin {
  import opened Common
  import opened Quotas
  import opened Sql
  import opened QuotasListTable

  // The table operations the page issues.

  /** `DELETE ... WHERE id IN (ids)`: the rows whose id is not listed, in their order. */
  function WithoutIds(rows: seq<QuotaRow>, ids: set<int>): (r: seq<QuotaRow>)
    ensures |r| <= |rows|
  {
    if rows == [] then []
    else
      var rest := WithoutIds(rows[..|rows| - 1], ids);
      if rows[|rows| - 1].id in ids then rest else rest + [rows[|rows| - 1]]
  }

  /** `UPDATE ... SET status = s WHERE id IN (ids)`. */
  function WithStatus(rows: seq<QuotaRow>, ids: set<int>, status: string): (r: seq<QuotaRow>)
    ensures |r| == |rows|
  {
    seq(|rows|, k requires 0 <= k < |rows| => if rows[k].id in ids then rows[k].(status := status) else rows[k])
  }

  /** `UPDATE ... SET quota_used = 0 WHERE id IN (ids)`. */
  function WithUsageReset(rows: seq<QuotaRow>, ids: set<int>): (r: seq<QuotaRow>)
    ensures |r| == |rows|
  {
    seq(|rows|, k requires 0 <= k < |rows| => if rows[k].id in ids then rows[k].(quotaUsed := 0) else rows[k])
  }

  /** The edit form's `UPDATE ... WHERE id = id`. */
  function Edited(rows: seq<QuotaRow>, id: int, total: int, used: int, status: string, renewal: Option<int>): (r: seq<QuotaRow>)
    ensures |r| == |rows|
  {
    seq(|rows|, k requires 0 <= k < |rows| =>
      if rows[k].id == id then
        rows[k].(quotaTotal := total, quotaUsed := used, status := status,
                 renewalDate := if renewal.Some? then renewal else rows[k].renewalDate)
      else rows[k])
  }

  /**
   * A bulk delete keeps exactly the rows whose id is not listed, and keeps
   * the table's ids unique.
   */
  lemma {:induction false} DeleteRemovesExactlyListed(rows: seq<QuotaRow>, ids: set<int>)
    ensures forall q :: q in WithoutIds(rows, ids) <==> q in rows && q.id !in ids
    ensures UniqueIds(rows) ==> UniqueIds(WithoutIds(rows, ids))
  {
    if rows != [] {
      var init := rows[..|rows| - 1];
      var last := rows[|rows| - 1];
      DeleteRemovesExactlyListed(init, ids);
      assert rows == init + [last];
      if UniqueIds(rows) {
        assert UniqueIds(init) by {
          forall i, j | 0 <= i < |init| && 0 <= j < |init| && init[i].id == init[j].id
            ensures i == j
          {
            assert rows[i] == init[i] && rows[j] == init[j];
          }
        }
        var rest := WithoutIds(init, ids);
        if last.id !in ids {
          forall q | q in rest
            ensures q.id != last.id
          {
            var i :| 0 <= i < |init| && init[i] == q;
            assert rows[i] == q && rows[|rows| - 1] == last;
          }
          UniqueAppend(rest, last);
        }
      }
    }
  }

  lemma UniqueAppend(rest: seq<QuotaRow>, last: QuotaRow)
    requires UniqueIds(rest)
    requires forall q :: q in rest ==> q.id != last.id
    ensures UniqueIds(rest + [last])
  {
    var r := rest + [last];
    forall k | 0 <= k < |rest|
      ensures r[k].id != last.id
    {
      assert r[k] == rest[k] && rest[k] in rest;
    }
  }

  /**
   * A status change touches only the listed rows and only their status:
   * every other column of every row, and every unlisted row, is unchanged.
   */
  lemma StatusChangeTouchesOnlyStatus(rows: seq<QuotaRow>, ids: set<int>, status: string)
    ensures forall k :: 0 <= k < |rows| ==>
      && WithStatus(rows, ids, status)[k].(status := rows[k].status) == rows[k]
      && WithStatus(rows, ids, status)[k].status == (if rows[k].id in ids then status else rows[k].status)
  {
  }

  /** A usage reset zeroes `quota_used` of the listed rows and changes nothing else, totals and statuses included. */
  lemma ResetTouchesOnlyUsage(rows: seq<QuotaRow>, ids: set<int>)
    ensures forall k :: 0 <= k < |rows| ==>
      && WithUsageReset(rows, ids)[k].(quotaUsed := rows[k].quotaUsed) == rows[k]
      && WithUsageReset(rows, ids)[k].quotaUsed == (if rows[k].id in ids then 0 else rows[k].quotaUsed)
  {
  }

  /** The last status written wins. */
  lemma LastStatusWins(rows: seq<QuotaRow>, ids: set<int>, first: string, second: string)
    ensures WithStatus(WithStatus(rows, ids, first), ids, second) == WithStatus(rows, ids, second)
  {
  }

  /**
   * Activating a row entitles its owner again: afterwards the download
   * gateway finds an active row for that user.
   */
  lemma ActivationEntitles(rows: seq<QuotaRow>, ids: set<int>, i: nat)
    requires i < |rows| && rows[i].id in ids
    ensures NewestActive(WithStatus(rows, ids, Active), rows[i].userId).Some?
  {
    var r := WithStatus(rows, ids, Active);
    assert ActiveFor(rows[i].userId, r[i]);
  }

  /**
   * Resetting the usage of the row the gateway would consult keeps that
   * row selected and, when its total is positive, lifts the download limit.
   */
  lemma ResetLiftsTheLimit(rows: seq<QuotaRow>, ids: set<int>, user: nat)
    requires NewestActive(rows, user).Some?
    requires rows[NewestActive(rows, user).value].id in ids
    requires rows[NewestActive(rows, user).value].quotaTotal > 0
    ensures NewestActive(WithUsageReset(rows, ids), user) == NewestActive(rows, user)
    ensures !LimitReached(WithUsageReset(rows, ids)[NewestActive(rows, user).value])
  {
    var r := WithUsageReset(rows, ids);
    NewestWhereIgnoresOtherColumns(rows, r, q => ActiveFor(user, q));
  }

  // The request.

  /** `absint` over the posted `quota_ids[]`. */
  function IdSet(quotaIds: seq<string>): set<int> {
    set s | s in quotaIds :: Abs(IntVal(s)) as int
  }

  /** One bulk dropdown's effect on the table: unknown actions change nothing. */
  function ApplyBulk(rows: seq<QuotaRow>, action: string, ids: set<int>): seq<QuotaRow> {
    if action == "delete" then WithoutIds(rows, ids)
    else if action == "activate" then WithStatus(rows, ids, Active)
    else if action == "deactivate" then WithStatus(rows, ids, Expired)
    else if action == "reset_quota" then WithUsageReset(rows, ids)
    else rows
  }

  /** The success notice of a bulk action; it counts the submitted ids, not the rows changed. */
  function BulkNotice(action: string, n: nat): Option<string> {
    if action == "delete" then Some(IntToString(n) + " quotas deleted successfully.")
    else if action == "activate" then Some(IntToString(n) + " quotas activated successfully.")
    else if action == "deactivate" then Some(IntToString(n) + " quotas deactivated successfully.")
    else if action == "reset_quota" then Some(IntToString(n) + " quotas reset successfully.")
    else None
  }

  /** The page's input: the query string, the posted fields and the posted `quota_ids[]` (None when absent). */
  datatype Request = Request(get: map<string, string>, post: map<string, string>, quotaIds: Option<seq<string>>)

  predicate SingleDeleteRequested(req: Request) {
    "action" in req.get && "id" in req.get && req.get["action"] == "delete"
  }

  /** A dropdown takes effect when its field and a non-empty id list are posted. */
  predicate BulkRequested(req: Request, field: string) {
    field in req.post && req.quotaIds.Some? && |req.quotaIds.value| > 0
  }

  function AfterSingleDelete(rows: seq<QuotaRow>, req: Request): seq<QuotaRow> {
    if SingleDeleteRequested(req) then WithoutIds(rows, {IntVal(req.get["id"])}) else rows
  }

  function AfterBulk(rows: seq<QuotaRow>, req: Request, field: string, sanitize: string -> string): seq<QuotaRow> {
    if BulkRequested(req, field) then ApplyBulk(rows, sanitize(req.post[field]), IdSet(req.quotaIds.value)) else rows
  }

  function AfterEdit(rows: seq<QuotaRow>, req: Request, sanitize: string -> string, toDate: string -> int): seq<QuotaRow> {
    if "edit_quota_id" !in req.post then rows
    else
      var date := sanitize(Posted(req.post, "renewal_date"));
      Edited(rows, IntVal(req.post["edit_quota_id"]), IntVal(Posted(req.post, "quota_total")),
             IntVal(Posted(req.post, "quota_used")), sanitize(Posted(req.post, "status")),
             if Truthy(date) then Some(toDate(date)) else None)
  }

  /** The four handlers in the order the page runs them. */
  function AfterRequest(rows: seq<QuotaRow>, req: Request, sanitize: string -> string, toDate: string -> int): seq<QuotaRow> {
    AfterEdit(AfterBulk(AfterBulk(AfterSingleDelete(rows, req), req, "action", sanitize), req, "action2", sanitize), req, sanitize, toDate)
  }

  /**
   * Both dropdowns act, one after the other: activating with the top one
   * and deactivating with the bottom one leaves the rows expired, and a
   * delete posted in both deletes once.
   */
  lemma BothDropdownsApply(rows: seq<QuotaRow>, req: Request, sanitize: string -> string)
    requires BulkRequested(req, "action") && BulkRequested(req, "action2")
    ensures var ids := IdSet(req.quotaIds.value);
      && (sanitize(req.post["action"]) == "activate" && sanitize(req.post["action2"]) == "deactivate" ==>
            AfterBulk(AfterBulk(rows, req, "action", sanitize), req, "action2", sanitize) == WithStatus(rows, ids, Expired))
      && (sanitize(req.post["action"]) == "delete" && sanitize(req.post["action2"]) == "delete" ==>
            AfterBulk(AfterBulk(rows, req, "action", sanitize), req, "action2", sanitize) == WithoutIds(rows, ids))
  {
    var ids := IdSet(req.quotaIds.value);
    if sanitize(req.post["action"]) == "activate" && sanitize(req.post["action2"]) == "deactivate" {
      LastStatusWins(rows, ids, Active, Expired);
    }
    if sanitize(req.post["action"]) == "delete" && sanitize(req.post["action2"]) == "delete" {
      DeleteTwice(rows, ids);
    }
  }

  lemma {:induction false} DeleteTwice(rows: seq<QuotaRow>, ids: set<int>)
    ensures WithoutIds(WithoutIds(rows, ids), ids) == WithoutIds(rows, ids)
  {
    if rows != [] {
      var init := rows[..|rows| - 1];
      DeleteTwice(init, ids);
      var rest := WithoutIds(init, ids);
      var last := rows[|rows| - 1];
      if last.id !in ids {
        assert (rest + [last])[..|rest + [last]| - 1] == rest;
      }
    }
  }

  /**
   * The edit form writes total, used and status of the row with that id
   * as posted, with no check that `used <= total`; the renewal date changes
   * only when a non-empty date is posted. Other rows are unchanged.
   */
  lemma EditRule(rows: seq<QuotaRow>, req: Request, sanitize: string -> string, toDate: string -> int)
    requires "edit_quota_id" in req.post
    ensures var r := AfterEdit(rows, req, sanitize, toDate);
      var id := IntVal(req.post["edit_quota_id"]);
      var date := sanitize(Posted(req.post, "renewal_date"));
      forall k :: 0 <= k < |rows| ==>
        if rows[k].id != id then r[k] == rows[k]
        else
          && r[k].quotaTotal == IntVal(Posted(req.post, "quota_total"))
          && r[k].quotaUsed == IntVal(Posted(req.post, "quota_used"))
          && r[k].status == sanitize(Posted(req.post, "status"))
          && r[k].renewalDate == (if Truthy(date) then Some(toDate(date)) else rows[k].renewalDate)
          && r[k].(quotaTotal := rows[k].quotaTotal, quotaUsed := rows[k].quotaUsed, status := rows[k].status,
                   renewalDate := rows[k].renewalDate) == rows[k]
  {
  }

  /**
   * Nothing stops an edit from setting `quota_used` above `quota_total`:
   * after such an edit the gateway refuses the row as exhausted.
   */
  lemma EditCanOverdraw(row: QuotaRow, sanitize: string -> string, toDate: string -> int)
    requires !row.isUnlimited
    ensures var req := Request(map[], map["edit_quota_id" := IntToString(row.id), "quota_total" := "5", "quota_used" := "9"], None);
      var r := AfterEdit([row], req, sanitize, toDate);
      r[0].quotaUsed > r[0].quotaTotal && LimitReached(r[0])
  {
    var post := map["edit_quota_id" := IntToString(row.id), "quota_total" := "5", "quota_used" := "9"];
    IntValOfIntToString(row.id);
    IntValOfIntToString(5);
    IntValOfIntToString(9);
    assert IntToString(5) == "5" && IntToString(9) == "9";
    assert IntVal(post["edit_quota_id"]) == row.id;
    assert IntVal(Posted(post, "quota_total")) == 5 && IntVal(Posted(post, "quota_used")) == 9;
    var e := Edited([row], row.id, 5, 9, sanitize(Posted(post, "status")), None);
    var e2 := Edited([row], row.id, 5, 9, sanitize(Posted(post, "status")), Some(0));
    assert e[0].quotaUsed == 9 && e[0].quotaTotal == 5 && !e[0].isUnlimited;
    assert e2[0].quotaUsed == 9 && e2[0].quotaTotal == 5 && !e2[0].isUnlimited;
  }

  class QuotaTable {
    var rows: seq<QuotaRow>

    constructor (rows: seq<QuotaRow>)
      ensures this.rows == rows
    {
      this.rows := rows;
    }

    /** `$wpdb->delete($table, ['id' => $id])`. */
    method DeleteRow(id: int)
      modifies this
      ensures rows == WithoutIds(old(rows), {id})
    {
      rows := WithoutIds(rows, {id});
    }

    /** One bulk dropdown: the switch over the sanitised action. */
    method RunBulk(action: string, ids: set<int>, submitted: nat) returns (notice: Option<string>)
      modifies this
      ensures rows == ApplyBulk(old(rows), action, ids)
      ensures notice == BulkNotice(action, submitted)
    {
      notice := None;
      if action == "delete" {
        rows := WithoutIds(rows, ids);
        notice := Some(IntToString(submitted) + " quotas deleted successfully.");
      } else if action == "activate" {
        rows := WithStatus(rows, ids, Active);
        notice := Some(IntToString(submitted) + " quotas activated successfully.");
      } else if action == "deactivate" {
        rows := WithStatus(rows, ids, Expired);
        notice := Some(IntToString(submitted) + " quotas deactivated successfully.");
      } else if action == "reset_quota" {
        rows := WithUsageReset(rows, ids);
        notice := Some(IntToString(submitted) + " quotas reset successfully.");
      }
    }

    /**
     * The handlers of `shutterpress_render_user_quotas_page`, in order: the
     * single delete (which dies on a bad nonce before anything changes),
     * the `action` dropdown, the `action2` dropdown, and the edit form.
     */
    method HandleActions(req: Request, refererOk: int -> bool, sanitize: string -> string, toDate: string -> int)
      returns (died: bool, notices: seq<string>)
      modifies this
      ensures died <==> SingleDeleteRequested(req) && !refererOk(IntVal(req.get["id"]))
      ensures died ==> rows == old(rows) && notices == []
      ensures !died ==> rows == AfterRequest(old(rows), req, sanitize, toDate)
    {
      died, notices := false, [];
      if SingleDeleteRequested(req) {
        var id := IntVal(req.get["id"]);
        if !refererOk(id) {
          died := true;
          return;
        }
        DeleteRow(id);
        notices := notices + ["Quota deleted successfully."];
      }
      var fields := ["action", "action2"];
      for f := 0 to 2
        invariant rows == (if f == 0 then AfterSingleDelete(old(rows), req)
                           else if f == 1 then AfterBulk(AfterSingleDelete(old(rows), req), req, "action", sanitize)
                           else AfterBulk(AfterBulk(AfterSingleDelete(old(rows), req), req, "action", sanitize), req, "action2", sanitize))
      {
        var field := fields[f];
        if field in req.post && req.quotaIds.Some? && |req.quotaIds.value| > 0 {
          var notice := RunBulk(sanitize(req.post[field]), IdSet(req.quotaIds.value), |req.quotaIds.value|);
          if notice.Some? {
            notices := notices + [notice.value];
          }
        }
      }
      if "edit_quota_id" in req.post {
        var date := sanitize(Posted(req.post, "renewal_date"));
        rows := Edited(rows, IntVal(req.post["edit_quota_id"]), IntVal(Posted(req.post, "quota_total")),
                       IntVal(Posted(req.post, "quota_used")), sanitize(Posted(req.post, "status")),
                       if Truthy(date) then Some(toDate(date)) else None);
        notices := notices + ["Quota updated successfully."];
      }
    }
  }

  // The CSV export.

  /**
   * The export's filters: the list's user filter, the plan id read with
   * `absint` (no name search) and the status as given (no whitelist).
   */
  function ExportFilters(get: map<string, string>, lk: Lookups): (r: seq<Clause>)
    ensures |r| <= 3 && forall c :: c in r ==> |c.params| >= 1
    ensures Filled(get, "filter_plan") ==> Clause(PlanIdSql, [IntParam(Abs(IntVal(get["filter_plan"])))]) in r
    ensures Filled(get, "filter_status") ==> Clause(StatusSql, [StrParam(lk.sanitize(get["filter_status"]))]) in r
    ensures !Filled(get, "filter_user") && !Filled(get, "filter_plan") && !Filled(get, "filter_status") ==> r == []
  {
    UserFilter(get, lk) + ExportPlanFilter(get) + ExportStatusFilter(get, lk)
  }

  function ExportPlanFilter(get: map<string, string>): seq<Clause> {
    if Filled(get, "filter_plan") then [Clause(PlanIdSql, [IntParam(Abs(IntVal(get["filter_plan"])))])] else []
  }

  function ExportStatusFilter(get: map<string, string>, lk: Lookups): seq<Clause> {
    if Filled(get, "filter_status") then [Clause(StatusSql, [StrParam(lk.sanitize(get["filter_status"]))])] else []
  }

  /**
   * Every export clause takes a parameter, so the export issues its WHERE
   * text exactly when it has parameters: the unprepared branch never
   * drops a clause.
   */
  lemma {:induction false} ExportNeverDropsClauses(get: map<string, string>, lk: Lookups)
    ensures Sqls(ExportFilters(get, lk)) != [] <==> ParamsOf(ExportFilters(get, lk)) != []
  {
    var u, pl, st := UserFilter(get, lk), ExportPlanFilter(get), ExportStatusFilter(get, lk);
    var fs := ExportFilters(get, lk);
    assert forall k :: 0 <= k < |u| ==> u[k].params != [];
    forall k | 0 <= k < |fs|
      ensures fs[k].params != []
    {
      if k < |u| {
        assert fs[k] == u[k];
      } else if k < |u| + |pl| {
        assert fs[k] == pl[k - |u|];
      } else {
        assert fs[k] == st[k - |u| - |pl|];
      }
    }
    EveryClauseHasParams(fs);
  }

  lemma {:induction false} EveryClauseHasParams(cs: seq<Clause>)
    requires forall k :: 0 <= k < |cs| ==> cs[k].params != []
    ensures Sqls(cs) != [] <==> ParamsOf(cs) != []
  {
  }

  /**
   * For the filters the form's dropdowns produce (a plan id, a listed
   * status) and no usage, expiration or date filter, the export selects
   * the same rows as the list.
   */
  lemma ExportMatchesListForDropdownFilters(get: map<string, string>, lk: Lookups)
    requires Filled(get, "filter_plan") ==>
      var p := get["filter_plan"]; lk.sanitize(p) == p && |p| > 0 && AllDigits(p)
    requires Filled(get, "filter_status") ==> lk.sanitize(get["filter_status"]) in FilterStatuses
    requires !Filled(get, "filter_quota_usage") && !Filled(get, "filter_expiration")
    requires !Filled(get, "filter_date_from") && !Filled(get, "filter_date_to")
    ensures ExportFilters(get, lk) == QuotaFilters(get, lk)
  {
    assert ExportPlanFilter(get) == PlanFilter(get, lk) by {
      if Filled(get, "filter_plan") {
        PlanFilterRule(get, lk);
        DigitsAreNumeric(get["filter_plan"]);
      }
    }
    assert ExportStatusFilter(get, lk) == StatusFilter(get, lk);
    assert UsageFilter(get, lk) == [] && ExpirationFilter(get, lk) == [] && DateFilter(get, lk) == [];
  }

  /** One exported line. */
  datatype ExportLine = ExportLine(
    id: nat, user: string, email: string, plan: string, total: int, used: int, remaining: int,
    status: string, renewal: string, created: string, lastDownload: string)

  /** The line of one row; `date` and `stamp` are how the database renders a DATE and a DATETIME. */
  function ExportRow(q: QuotaRow, u: Option<UserInfo>, planName: Option<string>,
                     date: int -> string, stamp: int -> string): (r: ExportLine)
    ensures r.id == q.id && r.total == q.quotaTotal && r.used == q.quotaUsed
    ensures r.remaining == r.total - r.used
    ensures Truthy(r.user) && Truthy(r.plan)
    ensures (r.email == "N/A") <==> (u.None? || !Truthy(u.value.email) || u.value.email == "N/A")
    ensures q.renewalDate.None? ==> r.renewal == "N/A"
    ensures q.lastDownload.None? ==> r.lastDownload == "Never"
  {
    ExportLine(q.id, UserLabel(q.userId, u),
               if u.Some? && Truthy(u.value.email) then u.value.email else "N/A",
               PlanLabel(q.planId, planName), q.quotaTotal, q.quotaUsed, q.quotaTotal - q.quotaUsed,
               Ucfirst(q.status),
               if q.renewalDate.Some? then date(q.renewalDate.value) else "N/A",
               stamp(q.createdAt),
               if q.lastDownload.Some? then stamp(q.lastDownload.value) else "Never")
  }

  /**
   * The export shows the same user name, status text, renewal date and last
   * download as the list, and its "remaining" goes negative exactly for
   * overdrawn rows.
   */
  lemma ExportAgreesWithList(q: QuotaRow, u: Option<UserInfo>, planName: Option<string>,
                             date: int -> string, stamp: int -> string, now: int)
    ensures var r := ExportRow(q, u, planName, date, stamp);
      && r.user == UserCell(q.userId, u).0
      && r.status == StatusCell(q.status).1
      && r.renewal == RenewalCell(q.renewalDate, now, date).0
      && r.lastDownload == LastDownloadCell(q.lastDownload, stamp)
      && (r.remaining < 0 <==> q.quotaUsed > q.quotaTotal)
  {
  }

  // The statistics.

  function CountWhere(rows: seq<QuotaRow>, p: QuotaRow -> bool): (n: nat)
    ensures n <= |rows|
  {
    if rows == [] then 0 else CountWhere(rows[..|rows| - 1], p) + (if p(rows[|rows| - 1]) then 1 else 0)
  }

  function SumOf(rows: seq<QuotaRow>, f: QuotaRow -> int): int {
    if rows == [] then 0 else SumOf(rows[..|rows| - 1], f) + f(rows[|rows| - 1])
  }

  datatype QuotaStats = QuotaStats(
    total: nat, uniqueUsers: nat, uniquePlans: nat, allotted: int, used: int,
    active: nat, expired: nat, full: nat, overdue: nat)

  /** `quota_used >= quota_total`, unlimited rows included. */
  predicate Full(q: QuotaRow) {
    q.quotaUsed >= q.quotaTotal
  }

  /** A renewal date in the past; a row without one is not overdue. */
  predicate Overdue(q: QuotaRow, now: int) {
    q.renewalDate.Some? && q.renewalDate.value < now
  }

  /** The statistics query over the whole table (an empty SUM is shown as 0). */
  function Statistics(rows: seq<QuotaRow>, now: int): (s: QuotaStats)
    ensures s.total == |rows|
    ensures s.active <= s.total && s.expired <= s.total && s.full <= s.total && s.overdue <= s.total
    ensures rows == [] ==> s == QuotaStats(0, 0, 0, 0, 0, 0, 0, 0, 0)
  {
    QuotaStats(
      |rows|,
      |set q | q in rows :: q.userId|,
      |set q | q in rows :: q.planId|,
      SumOf(rows, (q: QuotaRow) => q.quotaTotal),
      SumOf(rows, (q: QuotaRow) => q.quotaUsed),
      CountWhere(rows, (q: QuotaRow) => q.status == Active),
      CountWhere(rows, (q: QuotaRow) => q.status == Expired),
      CountWhere(rows, Full),
      CountWhere(rows, (q: QuotaRow) => Overdue(q, now)))
  }

  /** A predicate implied by another counts at least as many rows. */
  lemma {:induction false} CountMonotone(rows: seq<QuotaRow>, p: QuotaRow -> bool, p2: QuotaRow -> bool)
    requires forall q :: q in rows && p(q) ==> p2(q)
    ensures CountWhere(rows, p) <= CountWhere(rows, p2)
  {
    if rows != [] {
      var init := rows[..|rows| - 1];
      assert forall q :: q in init ==> q in rows;
      CountMonotone(init, p, p2);
    }
  }

  /** Two exclusive predicates count no more rows together than the table has. */
  lemma {:induction false} CountDisjoint(rows: seq<QuotaRow>, p: QuotaRow -> bool, p2: QuotaRow -> bool)
    requires forall q :: q in rows ==> !(p(q) && p2(q))
    ensures CountWhere(rows, p) + CountWhere(rows, p2) <= |rows|
  {
    if rows != [] {
      var init := rows[..|rows| - 1];
      assert forall q :: q in init ==> q in rows;
      CountDisjoint(init, p, p2);
    }
  }

  lemma {:induction false} DistinctAtMostRows(rows: seq<QuotaRow>, f: QuotaRow -> nat)
    ensures |set q | q in rows :: f(q)| <= |rows|
  {
    if rows != [] {
      var init := rows[..|rows| - 1];
      DistinctAtMostRows(init, f);
      assert (set q | q in rows :: f(q)) == (set q | q in init :: f(q)) + {f(rows[|rows| - 1])} by {
        assert rows == init + [rows[|rows| - 1]];
      }
    }
  }

  /**
   * The statistics are consistent: active and expired rows are disjoint,
   * distinct users and plans are at most the rows, and every row the
   * gateway would refuse as exhausted is counted as full.
   */
  lemma StatisticsBounds(rows: seq<QuotaRow>, now: int)
    ensures var s := Statistics(rows, now);
      && s.active + s.expired <= s.total
      && s.uniqueUsers <= s.total && s.uniquePlans <= s.total
      && CountWhere(rows, LimitReached) <= s.full <= s.total
      && s.overdue <= s.total
  {
    CountDisjoint(rows, (q: QuotaRow) => q.status == Active, (q: QuotaRow) => q.status == Expired);
    var users, plans := (q: QuotaRow) => q.userId, (q: QuotaRow) => q.planId;
    DistinctAtMostRows(rows, users);
    DistinctAtMostRows(rows, plans);
    assert (set q | q in rows :: q.userId) == (set q | q in rows :: users(q));
    assert (set q | q in rows :: q.planId) == (set q | q in rows :: plans(q));
    CountMonotone(rows, LimitReached, Full);
  }

  /** With no row overdrawn, the total used never exceeds the total allotted. */
  lemma {:induction false} UsedWithinAllotted(rows: seq<QuotaRow>, now: int)
    requires forall q :: q in rows ==> q.quotaUsed <= q.quotaTotal
    ensures Statistics(rows, now).used <= Statistics(rows, now).allotted
  {
    SumsOrdered(rows);
  }

  lemma {:induction false} SumsOrdered(rows: seq<QuotaRow>)
    requires forall q :: q in rows ==> q.quotaUsed <= q.quotaTotal
    ensures SumOf(rows, (q: QuotaRow) => q.quotaUsed) <= SumOf(rows, (q: QuotaRow) => q.quotaTotal)
  {
    if rows != [] {
      var init := rows[..|rows| - 1];
      assert forall q :: q in init ==> q in rows;
      SumsOrdered(init);
      assert rows[|rows| - 1] in rows;
    }
  }

  /**
   * "Full" is wider than the gateway's limit: an unlimited row with
   * `quota_used >= quota_total` is counted full although the gateway never
   * refuses it.
   */
  lemma FullCountsUnlimitedRows(q: QuotaRow, now: int)
    requires q.isUnlimited && q.quotaUsed >= q.quotaTotal
    ensures Statistics([q], now).full == 1 && CountWhere([q], LimitReached) == 0
  {
    assert [q][..0] == [];
  }
}
