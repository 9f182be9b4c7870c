/**
 * The admin list of user quotas: the filter form turned into where clauses
 * and `prepare` parameters, the sort column and direction, pagination, the
 * queries the listing issues, and the cell text of its columns.
 *
 * The WordPress lookups the builder calls are given as `Lookups`;
 * `DateTime::createFromFormat('Y-m-d', ...)` followed by `format('Y-m-d')`
 * is the partial function `ymd`.
 */
module QuotasListTable {
  import opened Common
  import opened Quotas
  import opened Sql

  datatype Lookups = Lookups(
    sanitize: string -> string,              // sanitize_text_field
    userByLogin: string -> Option<nat>,      // get_user_by('login', ...), its ID
    userByEmail: string -> Option<nat>,      // get_user_by('email', ...), its ID
    ymd: string -> Option<string>,           // a Y-m-d date re-rendered, None when it does not parse
    sanitizeOrderby: string -> string)       // sanitize_sql_orderby; "" for its `false`

  predicate AllSpace(s: string) {
    forall i :: 0 <= i < |s| ==> IsSpace(s[i])
  }

  /** An optional exponent (`e`, optional sign, digits) and then only white space. */
  predicate ExponentThenSpace(s: string) {
    AllSpace(s) ||
    (|s| > 0 && (s[0] == 'e' || s[0] == 'E') &&
      var v := if |s| > 1 && (s[1] == '+' || s[1] == '-') then s[2..] else s[1..];
      var d := LeadingDigits(v);
      |d| > 0 && AllSpace(v[|d|..]))
  }

  /**
   * PHP 8's `is_numeric` on a string: leading white space, an optional
   * sign, digits with an optional fraction (at least one digit in all), an
   * optional exponent, then trailing white space only.
   */
  predicate IsNumeric(s: string) {
    var t := SkipSpace(s);
    var u := if |t| > 0 && (t[0] == '+' || t[0] == '-') then t[1..] else t;
    var whole := LeadingDigits(u);
    var rest := u[|whole|..];
    var point := |rest| > 0 && rest[0] == '.';
    var frac := if point then LeadingDigits(rest[1..]) else "";
    var tail := if point then rest[1 + |frac|..] else rest;
    |whole| + |frac| > 0 && ExponentThenSpace(tail)
  }

  /** `%term%`: the LIKE pattern for a substring search. */
  function Like(term: string): string {
    "%" + term + "%"
  }

  const UserIdSql: Fragment := [Lit("q.user_id = "), IntHole]
  const UserLikeSql: Fragment :=
    [Lit("(u.display_name LIKE "), StrHole, Lit(" OR u.user_login LIKE "), StrHole, Lit(" OR u.user_email LIKE "), StrHole, Lit(")")]
  const PlanIdSql: Fragment := [Lit("q.plan_id = "), IntHole]
  const PlanLikeSql: Fragment := [Lit("p.plan_name LIKE "), StrHole]
  const StatusSql: Fragment := [Lit("q.status = "), StrHole]
  const CreatedFromSql: Fragment := [Lit("q.created_at >= "), StrHole]
  const CreatedToSql: Fragment := [Lit("q.created_at <= "), StrHole]

  /** The statuses the status filter accepts. */
  const FilterStatuses: seq<string> := ["active", "expired", "cancelled", "pending"]

  /** An exact login, else an exact e-mail address. */
  function FindUser(term: string, lk: Lookups): Option<nat> {
    match lk.userByLogin(term)
    case Some(id) => Some(id)
    case None => lk.userByEmail(term)
  }

  function UserFilter(get: map<string, string>, lk: Lookups): (r: seq<Clause>)
    ensures |r| <= 1 && (r == [] <==> !Filled(get, "filter_user"))
    ensures r != [] ==> |r[0].params| >= 1
  {
    if !Filled(get, "filter_user") then []
    else
      var term := lk.sanitize(get["filter_user"]);
      match FindUser(term, lk)
      case Some(id) => [Clause(UserIdSql, [IntParam(id)])]
      case None => [Clause(UserLikeSql, [StrParam(Like(term)), StrParam(Like(term)), StrParam(Like(term))])]
  }

  function PlanFilter(get: map<string, string>, lk: Lookups): seq<Clause> {
    if !Filled(get, "filter_plan") then []
    else
      var plan := lk.sanitize(get["filter_plan"]);
      if IsNumeric(plan) then [Clause(PlanIdSql, [IntParam(Abs(IntVal(plan)))])]
      else [Clause(PlanLikeSql, [StrParam(Like(plan))])]
  }

  function StatusFilter(get: map<string, string>, lk: Lookups): seq<Clause> {
    if !Filled(get, "filter_status") then []
    else
      var status := lk.sanitize(get["filter_status"]);
      if status in FilterStatuses then [Clause(StatusSql, [StrParam(status)])] else []
  }

  /** The usage bands; a clause without parameters. */
  function UsageSql(usage: string): Option<Fragment> {
    if usage == "full" then Some([Lit("q.quota_used >= q.quota_total")])
    else if usage == "high" then Some([Lit("q.quota_used >= (q.quota_total * 0.8)")])
    else if usage == "medium" then Some([Lit("q.quota_used >= (q.quota_total * 0.5)" + " AND q.quota_used < (q.quota_total * 0.8)")])
    else if usage == "low" then Some([Lit("q.quota_used < (q.quota_total * 0.5)")])
    else None
  }

  /** The renewal windows; a clause without parameters. */
  function ExpirationSql(window: string): Option<Fragment> {
    if window == "expired" then Some([Lit("q.quota_renewal_date < NOW()")])
    else if window == "expires_soon" then Some([Lit("q.quota_renewal_date BETWEEN NOW()" + " AND DATE_ADD(NOW(), INTERVAL 7 DAY)")])
    else if window == "expires_month" then Some([Lit("q.quota_renewal_date BETWEEN NOW()" + " AND DATE_ADD(NOW(), INTERVAL 30 DAY)")])
    else None
  }

  function UsageFilter(get: map<string, string>, lk: Lookups): seq<Clause> {
    if !Filled(get, "filter_quota_usage") then []
    else match UsageSql(lk.sanitize(get["filter_quota_usage"]))
      case None => []
      case Some(f) => [Clause(f, [])]
  }

  function ExpirationFilter(get: map<string, string>, lk: Lookups): seq<Clause> {
    if !Filled(get, "filter_expiration") then []
    else match ExpirationSql(lk.sanitize(get["filter_expiration"]))
      case None => []
      case Some(f) => [Clause(f, [])]
  }

  /** One bound of the creation-date range, skipped when the value is not a Y-m-d date. */
  function DateBound(get: map<string, string>, lk: Lookups, key: string, sql: Fragment, time: string): seq<Clause> {
    if !Filled(get, key) then []
    else match lk.ymd(lk.sanitize(get[key]))
      case None => []
      case Some(d) => [Clause(sql, [StrParam(d + time)])]
  }

  function DateFilter(get: map<string, string>, lk: Lookups): seq<Clause> {
    if !Filled(get, "filter_date_from") && !Filled(get, "filter_date_to") then []
    else
      DateBound(get, lk, "filter_date_from", CreatedFromSql, " 00:00:00")
      + DateBound(get, lk, "filter_date_to", CreatedToSql, " 23:59:59")
  }

  /** All clauses of the filter form, in the order `prepare_items` adds them. */
  function QuotaFilters(get: map<string, string>, lk: Lookups): seq<Clause> {
    UserFilter(get, lk) + PlanFilter(get, lk) + StatusFilter(get, lk)
      + UsageFilter(get, lk) + ExpirationFilter(get, lk) + DateFilter(get, lk)
  }

  /** A single literal without `%` is a well-formed clause without parameters. */
  lemma PlainText(text: string)
    requires NoPercent(text)
    ensures WellFormed(Clause([Lit(text)], []))
  {
    assert Holes([Lit(text)]) == [] by {
      assert [Lit(text)][1..] == [];
    }
  }

  /** The parameter-free usage clauses carry no `%`. */
  lemma PlainUsage(band: string)
    ensures UsageSql(band).Some? ==> WellFormed(Clause(UsageSql(band).value, []))
  {
    if band == "full" {
      PlainUsageFull();
    } else if band == "high" {
      PlainUsageHigh();
    } else if band == "medium" {
      PlainUsageMedium();
    } else if band == "low" {
      PlainUsageLow();
    }
  }

  lemma PlainUsageFull()
    ensures WellFormed(Clause(UsageSql("full").value, []))
  {
    PlainText("q.quota_used >= q.quota_total");
  }

  lemma PlainUsageHigh()
    ensures WellFormed(Clause(UsageSql("high").value, []))
  {
    PlainText("q.quota_used >= (q.quota_total * 0.8)");
  }

  lemma PlainUsageMedium()
    ensures WellFormed(Clause(UsageSql("medium").value, []))
  {
    NoPercentConcat("q.quota_used >= (q.quota_total * 0.5)", " AND q.quota_used < (q.quota_total * 0.8)");
    PlainText("q.quota_used >= (q.quota_total * 0.5)" + " AND q.quota_used < (q.quota_total * 0.8)");
  }

  lemma PlainUsageLow()
    ensures WellFormed(Clause(UsageSql("low").value, []))
  {
    PlainText("q.quota_used < (q.quota_total * 0.5)");
  }

  /** The parameter-free expiration clauses carry no `%`. */
  lemma PlainExpiration(window: string)
    ensures ExpirationSql(window).Some? ==> WellFormed(Clause(ExpirationSql(window).value, []))
  {
    if window == "expired" {
      PlainText("q.quota_renewal_date < NOW()");
    } else if window == "expires_soon" {
      PlainExpiresWithin(" AND DATE_ADD(NOW(), INTERVAL 7 DAY)");
    } else if window == "expires_month" {
      PlainExpiresWithin(" AND DATE_ADD(NOW(), INTERVAL 30 DAY)");
    }
  }

  lemma PlainExpiresWithin(upper: string)
    requires NoPercent(upper)
    ensures WellFormed(Clause([Lit("q.quota_renewal_date BETWEEN NOW()" + upper)], []))
  {
    NoPercentConcat("q.quota_renewal_date BETWEEN NOW()", upper);
    PlainText("q.quota_renewal_date BETWEEN NOW()" + upper);
  }

  /** A literal, one hole, and a parameter of the hole's kind. */
  lemma OneHole(text: string, hole: Part, p: Param)
    requires NoPercent(text) && Fits(hole, p)
    ensures WellFormed(Clause([Lit(text), hole], [p]))
  {
    var f := [Lit(text), hole];
    assert f[1..] == [hole] && [hole][1..] == [];
    assert Holes(f) == [hole];
  }

  lemma UserFilterWellFormed(get: map<string, string>, lk: Lookups)
    ensures AllWellFormed(UserFilter(get, lk))
  {
    if Filled(get, "filter_user") {
      var term := lk.sanitize(get["filter_user"]);
      match FindUser(term, lk)
      case Some(id) =>
        UserIdWellFormed(id);
      case None =>
        UserLikeWellFormed(Like(term));
    }
  }

  lemma UserIdWellFormed(id: int)
    ensures WellFormed(Clause(UserIdSql, [IntParam(id)]))
  {
    OneHole("q.user_id = ", IntHole, IntParam(id));
  }

  lemma UserLikeWellFormed(t: string)
    ensures WellFormed(Clause(UserLikeSql, [StrParam(t), StrParam(t), StrParam(t)]))
  {
    UserLikeTexts();
    ThreeHoles("(u.display_name LIKE ", " OR u.user_login LIKE ", " OR u.user_email LIKE ", ")", t);
  }

  lemma UserLikeTexts()
    ensures NoPercent("(u.display_name LIKE ") && NoPercent(" OR u.user_login LIKE ")
    ensures NoPercent(" OR u.user_email LIKE ") && NoPercent(")")
  {
  }

  /** Three string holes between four literals, bound by three string parameters. */
  lemma ThreeHoles(a: string, b: string, c: string, d: string, t: string)
    requires NoPercent(a) && NoPercent(b) && NoPercent(c) && NoPercent(d)
    ensures WellFormed(Clause([Lit(a), StrHole, Lit(b), StrHole, Lit(c), StrHole, Lit(d)], [StrParam(t), StrParam(t), StrParam(t)]))
  {
    var pa, pb, pc, pd := [Lit(a), StrHole], [Lit(b), StrHole], [Lit(c), StrHole], [Lit(d)];
    OneHole(a, StrHole, StrParam(t));
    OneHole(b, StrHole, StrParam(t));
    OneHole(c, StrHole, StrParam(t));
    assert Holes(pd) == [] by {
      assert pd[1..] == [];
    }
    assert PlainLiterals(pd);
    HolesAppend(pa, pb);
    HolesAppend(pa + pb, pc);
    HolesAppend(pa + pb + pc, pd);
    PlainAppend(pa, pb);
    PlainAppend(pa + pb, pc);
    PlainAppend(pa + pb + pc, pd);
    assert pa + pb + pc + pd == [Lit(a), StrHole, Lit(b), StrHole, Lit(c), StrHole, Lit(d)];
  }

  lemma PlanFilterWellFormed(get: map<string, string>, lk: Lookups)
    ensures AllWellFormed(PlanFilter(get, lk))
  {
    forall i: int ensures WellFormed(Clause(PlanIdSql, [IntParam(i)])) {
      OneHole("q.plan_id = ", IntHole, IntParam(i));
    }
    forall t: string ensures WellFormed(Clause(PlanLikeSql, [StrParam(t)])) {
      OneHole("p.plan_name LIKE ", StrHole, StrParam(t));
    }
  }

  lemma StatusFilterWellFormed(get: map<string, string>, lk: Lookups)
    ensures AllWellFormed(StatusFilter(get, lk))
  {
    forall t: string ensures WellFormed(Clause(StatusSql, [StrParam(t)])) {
      OneHole("q.status = ", StrHole, StrParam(t));
    }
  }

  lemma DateBoundWellFormed(get: map<string, string>, lk: Lookups, key: string, text: string, time: string)
    requires NoPercent(text)
    ensures AllWellFormed(DateBound(get, lk, key, [Lit(text), StrHole], time))
  {
    forall t: string ensures WellFormed(Clause([Lit(text), StrHole], [StrParam(t)])) {
      OneHole(text, StrHole, StrParam(t));
    }
  }

  /** Every clause the form can produce is well formed. */
  lemma FiltersWellFormed(get: map<string, string>, lk: Lookups)
    ensures AllWellFormed(QuotaFilters(get, lk))
  {
    UserFilterWellFormed(get, lk);
    PlanFilterWellFormed(get, lk);
    StatusFilterWellFormed(get, lk);
    DateBoundWellFormed(get, lk, "filter_date_from", "q.created_at >= ", " 00:00:00");
    DateBoundWellFormed(get, lk, "filter_date_to", "q.created_at <= ", " 23:59:59");
    if Filled(get, "filter_quota_usage") {
      PlainUsage(lk.sanitize(get["filter_quota_usage"]));
    }
    if Filled(get, "filter_expiration") {
      PlainExpiration(lk.sanitize(get["filter_expiration"]));
    }
    var from := DateBound(get, lk, "filter_date_from", CreatedFromSql, " 00:00:00");
    var to := DateBound(get, lk, "filter_date_to", CreatedToSql, " 23:59:59");
    AllWellFormedAppend(from, to);
    var a := UserFilter(get, lk) + PlanFilter(get, lk);
    AllWellFormedAppend(UserFilter(get, lk), PlanFilter(get, lk));
    var b := a + StatusFilter(get, lk);
    AllWellFormedAppend(a, StatusFilter(get, lk));
    var c := b + UsageFilter(get, lk);
    AllWellFormedAppend(b, UsageFilter(get, lk));
    var d := c + ExpirationFilter(get, lk);
    AllWellFormedAppend(c, ExpirationFilter(get, lk));
    AllWellFormedAppend(d, DateFilter(get, lk));
  }

  /**
   * The placeholder invariant of the filter form: whatever is submitted,
   * the `WHERE` text has one `%d`/`%s` per parameter, of the right kind.
   */
  lemma FilterPlaceholdersMatchParams(get: map<string, string>, lk: Lookups)
    ensures Binds(AllHoles(Sqls(QuotaFilters(get, lk))), ParamsOf(QuotaFilters(get, lk)))
    ensures PlaceholderCount(Render(WhereSql(Sqls(QuotaFilters(get, lk))))) == |ParamsOf(QuotaFilters(get, lk))|
  {
    FiltersWellFormed(get, lk);
    ClausesBind(QuotaFilters(get, lk));
    WherePlaceholders(QuotaFilters(get, lk));
  }

  /**
   * The user filter: an exact login or e-mail match filters on that user's
   * id; anything else searches the three user columns for the term.
   */
  lemma UserFilterRule(get: map<string, string>, lk: Lookups)
    requires Filled(get, "filter_user")
    ensures var term := lk.sanitize(get["filter_user"]);
      && (lk.userByLogin(term).Some? ==> UserFilter(get, lk) == [Clause(UserIdSql, [IntParam(lk.userByLogin(term).value)])])
      && (lk.userByLogin(term).None? && lk.userByEmail(term).Some? ==>
            UserFilter(get, lk) == [Clause(UserIdSql, [IntParam(lk.userByEmail(term).value)])])
      && (lk.userByLogin(term).None? && lk.userByEmail(term).None? ==>
            |UserFilter(get, lk)| == 1 && |UserFilter(get, lk)[0].params| == 3
            && forall k :: 0 <= k < 3 ==> UserFilter(get, lk)[0].params[k] == StrParam(Like(term)))
  {
  }

  /** Plain digits are numeric. */
  lemma DigitsAreNumeric(p: string)
    requires |p| > 0 && AllDigits(p)
    ensures IsNumeric(p) && IntVal(p) == Decimal(p)
  {
    LeadingDigitsOfDigits(p);
    assert !IsSpace(p[0]) && SkipSpace(p) == p;
    assert !(p[0] == '+' || p[0] == '-');
    assert p[|p|..] == [] && AllSpace([]);
  }

  /** An ASCII letter of either case. */
  predicate IsLetter(c: char) {
    'a' <= c <= 'z' || 'A' <= c <= 'Z'
  }

  /** A term starting with a letter is not numeric. */
  lemma WordsAreNotNumeric(p: string)
    requires |p| > 0 && IsLetter(p[0])
    ensures !IsNumeric(p)
  {
    assert !IsSpace(p[0]) && SkipSpace(p) == p;
    assert !(p[0] == '+' || p[0] == '-') && !IsDigit(p[0]);
    assert LeadingDigits(p) == [];
    assert p[|LeadingDigits(p)|..] == p && p[0] != '.';
  }

  /**
   * The plan filter: a numeric term filters on the plan id it reads as, any
   * other term searches plan names. In particular a plan id typed as plain
   * digits filters on that id, and a plan name starting with a letter of
   * either case (such as "Pro") searches plan names.
   */
  lemma PlanFilterRule(get: map<string, string>, lk: Lookups)
    requires Filled(get, "filter_plan")
    ensures var p := lk.sanitize(get["filter_plan"]);
      && (IsNumeric(p) ==> PlanFilter(get, lk) == [Clause(PlanIdSql, [IntParam(Abs(IntVal(p)))])])
      && (!IsNumeric(p) ==> PlanFilter(get, lk) == [Clause(PlanLikeSql, [StrParam(Like(p))])])
      && (|p| > 0 && AllDigits(p) ==> PlanFilter(get, lk) == [Clause(PlanIdSql, [IntParam(Decimal(p))])])
      && (|p| > 0 && IsLetter(p[0]) ==> PlanFilter(get, lk) == [Clause(PlanLikeSql, [StrParam(Like(p))])])
  {
    var p := lk.sanitize(get["filter_plan"]);
    if |p| > 0 && AllDigits(p) {
      DigitsAreNumeric(p);
    } else if |p| > 0 && IsLetter(p[0]) {
      WordsAreNotNumeric(p);
    }
  }

  /** The status clause is added exactly for the four known statuses, with the status as its parameter. */
  lemma StatusFilterWhitelist(get: map<string, string>, lk: Lookups)
    ensures StatusFilter(get, lk) != [] <==>
      Filled(get, "filter_status") && lk.sanitize(get["filter_status"]) in FilterStatuses
    ensures StatusFilter(get, lk) != [] ==>
      StatusFilter(get, lk) == [Clause(StatusSql, [StrParam(lk.sanitize(get["filter_status"]))])]
  {
  }

  /**
   * Usage and expiration filters add clauses but never parameters; the
   * date filter adds one parameter per bound that parses, with the time of
   * day that makes the range inclusive.
   */
  lemma ParamlessAndDateFilters(get: map<string, string>, lk: Lookups)
    ensures ParamsOf(UsageFilter(get, lk)) == [] && ParamsOf(ExpirationFilter(get, lk)) == []
    ensures |UsageFilter(get, lk)| == (if Filled(get, "filter_quota_usage") && UsageSql(lk.sanitize(get["filter_quota_usage"])).Some? then 1 else 0)
    ensures |ExpirationFilter(get, lk)| == (if Filled(get, "filter_expiration") && ExpirationSql(lk.sanitize(get["filter_expiration"])).Some? then 1 else 0)
    ensures ParamsOf(DateFilter(get, lk)) ==
      (if Filled(get, "filter_date_from") && lk.ymd(lk.sanitize(get["filter_date_from"])).Some?
       then [StrParam(lk.ymd(lk.sanitize(get["filter_date_from"])).value + " 00:00:00")] else [])
      + (if Filled(get, "filter_date_to") && lk.ymd(lk.sanitize(get["filter_date_to"])).Some?
         then [StrParam(lk.ymd(lk.sanitize(get["filter_date_to"])).value + " 23:59:59")] else [])
  {
    OneClause(UsageFilter(get, lk));
    OneClause(ExpirationFilter(get, lk));
    DateFilterParams(get, lk);
  }

  lemma DateFilterParams(get: map<string, string>, lk: Lookups)
    ensures ParamsOf(DateFilter(get, lk)) ==
      ParamsOf(DateBound(get, lk, "filter_date_from", CreatedFromSql, " 00:00:00"))
      + ParamsOf(DateBound(get, lk, "filter_date_to", CreatedToSql, " 23:59:59"))
    ensures ParamsOf(DateBound(get, lk, "filter_date_from", CreatedFromSql, " 00:00:00")) ==
      (if Filled(get, "filter_date_from") && lk.ymd(lk.sanitize(get["filter_date_from"])).Some?
       then [StrParam(lk.ymd(lk.sanitize(get["filter_date_from"])).value + " 00:00:00")] else [])
    ensures ParamsOf(DateBound(get, lk, "filter_date_to", CreatedToSql, " 23:59:59")) ==
      (if Filled(get, "filter_date_to") && lk.ymd(lk.sanitize(get["filter_date_to"])).Some?
       then [StrParam(lk.ymd(lk.sanitize(get["filter_date_to"])).value + " 23:59:59")] else [])
  {
    var from := DateBound(get, lk, "filter_date_from", CreatedFromSql, " 00:00:00");
    var to := DateBound(get, lk, "filter_date_to", CreatedToSql, " 23:59:59");
    SqlsAppend(from, to);
    OneClause(from);
    OneClause(to);
    if !Filled(get, "filter_date_from") && !Filled(get, "filter_date_to") {
      assert from == [] && to == [];
    }
  }

  /**
   * `prepare_items` up to `$where_sql`: each filter block appends its
   * clauses and parameters in turn.
   */
  method BuildFilters(get: map<string, string>, lk: Lookups) returns (whereClauses: seq<Fragment>, params: seq<Param>)
    ensures whereClauses == Sqls(QuotaFilters(get, lk)) && params == ParamsOf(QuotaFilters(get, lk))
    ensures Binds(AllHoles(whereClauses), params)
    ensures PlaceholderCount(Render(WhereSql(whereClauses))) == |params|
  {
    ghost var done: seq<Clause> := [];
    whereClauses, params := AddUserFilter(get, lk, done, [], []);
    done := done + UserFilter(get, lk);
    whereClauses, params := AddPlanFilter(get, lk, done, whereClauses, params);
    done := done + PlanFilter(get, lk);
    whereClauses, params := AddStatusFilter(get, lk, done, whereClauses, params);
    done := done + StatusFilter(get, lk);
    whereClauses, params := AddUsageFilter(get, lk, done, whereClauses, params);
    done := done + UsageFilter(get, lk);
    whereClauses, params := AddExpirationFilter(get, lk, done, whereClauses, params);
    done := done + ExpirationFilter(get, lk);
    whereClauses, params := AddDateFilter(get, lk, done, whereClauses, params);
    done := done + DateFilter(get, lk);
    assert [] + UserFilter(get, lk) == UserFilter(get, lk);
    assert done == QuotaFilters(get, lk);
    FilterPlaceholdersMatchParams(get, lk);
  }

  method AddUserFilter(get: map<string, string>, lk: Lookups, ghost done: seq<Clause>, w: seq<Fragment>, p: seq<Param>)
    returns (whereClauses: seq<Fragment>, params: seq<Param>)
    requires w == Sqls(done) && p == ParamsOf(done)
    ensures whereClauses == Sqls(done + UserFilter(get, lk)) && params == ParamsOf(done + UserFilter(get, lk))
  {
    whereClauses, params := w, p;
    if Filled(get, "filter_user") {
      var term := lk.sanitize(get["filter_user"]);
      var user := lk.userByLogin(term);
      if user.None? {
        user := lk.userByEmail(term);
      }
      if user.Some? {
        whereClauses := whereClauses + [UserIdSql];
        params := params + [IntParam(user.value)];
      } else {
        whereClauses := whereClauses + [UserLikeSql];
        params := params + [StrParam(Like(term)), StrParam(Like(term)), StrParam(Like(term))];
      }
    }
    OneClause(UserFilter(get, lk));
    SqlsAppend(done, UserFilter(get, lk));
  }

  method AddPlanFilter(get: map<string, string>, lk: Lookups, ghost done: seq<Clause>, w: seq<Fragment>, p: seq<Param>)
    returns (whereClauses: seq<Fragment>, params: seq<Param>)
    requires w == Sqls(done) && p == ParamsOf(done)
    ensures whereClauses == Sqls(done + PlanFilter(get, lk)) && params == ParamsOf(done + PlanFilter(get, lk))
  {
    whereClauses, params := w, p;
    if Filled(get, "filter_plan") {
      var plan := lk.sanitize(get["filter_plan"]);
      if IsNumeric(plan) {
        whereClauses := whereClauses + [PlanIdSql];
        params := params + [IntParam(Abs(IntVal(plan)))];
      } else {
        whereClauses := whereClauses + [PlanLikeSql];
        params := params + [StrParam(Like(plan))];
      }
    }
    OneClause(PlanFilter(get, lk));
    SqlsAppend(done, PlanFilter(get, lk));
  }

  method AddStatusFilter(get: map<string, string>, lk: Lookups, ghost done: seq<Clause>, w: seq<Fragment>, p: seq<Param>)
    returns (whereClauses: seq<Fragment>, params: seq<Param>)
    requires w == Sqls(done) && p == ParamsOf(done)
    ensures whereClauses == Sqls(done + StatusFilter(get, lk)) && params == ParamsOf(done + StatusFilter(get, lk))
  {
    whereClauses, params := w, p;
    if Filled(get, "filter_status") {
      var status := lk.sanitize(get["filter_status"]);
      if status in FilterStatuses {
        whereClauses := whereClauses + [StatusSql];
        params := params + [StrParam(status)];
      }
    }
    OneClause(StatusFilter(get, lk));
    SqlsAppend(done, StatusFilter(get, lk));
  }

  /** The usage block: a clause only, never a parameter. */
  method AddUsageFilter(get: map<string, string>, lk: Lookups, ghost done: seq<Clause>, w: seq<Fragment>, p: seq<Param>)
    returns (whereClauses: seq<Fragment>, params: seq<Param>)
    requires w == Sqls(done) && p == ParamsOf(done)
    ensures whereClauses == Sqls(done + UsageFilter(get, lk)) && params == ParamsOf(done + UsageFilter(get, lk))
  {
    whereClauses, params := w, p;
    if Filled(get, "filter_quota_usage") {
      var usage := UsageSql(lk.sanitize(get["filter_quota_usage"]));
      if usage.Some? {
        whereClauses := whereClauses + [usage.value];
      }
    }
    OneClause(UsageFilter(get, lk));
    SqlsAppend(done, UsageFilter(get, lk));
  }

  /** The expiration block: a clause only, never a parameter. */
  method AddExpirationFilter(get: map<string, string>, lk: Lookups, ghost done: seq<Clause>, w: seq<Fragment>, p: seq<Param>)
    returns (whereClauses: seq<Fragment>, params: seq<Param>)
    requires w == Sqls(done) && p == ParamsOf(done)
    ensures whereClauses == Sqls(done + ExpirationFilter(get, lk)) && params == ParamsOf(done + ExpirationFilter(get, lk))
  {
    whereClauses, params := w, p;
    if Filled(get, "filter_expiration") {
      var window := ExpirationSql(lk.sanitize(get["filter_expiration"]));
      if window.Some? {
        whereClauses := whereClauses + [window.value];
      }
    }
    OneClause(ExpirationFilter(get, lk));
    SqlsAppend(done, ExpirationFilter(get, lk));
  }

  /** The date block: each bound that parses adds its clause and its parameter. */
  method AddDateFilter(get: map<string, string>, lk: Lookups, ghost done: seq<Clause>, w: seq<Fragment>, p: seq<Param>)
    returns (whereClauses: seq<Fragment>, params: seq<Param>)
    requires w == Sqls(done) && p == ParamsOf(done)
    ensures whereClauses == Sqls(done + DateFilter(get, lk)) && params == ParamsOf(done + DateFilter(get, lk))
  {
    whereClauses, params := w, p;
    if Filled(get, "filter_date_from") || Filled(get, "filter_date_to") {
      var from := DateBound(get, lk, "filter_date_from", CreatedFromSql, " 00:00:00");
      whereClauses, params := AddDateBound(get, lk, "filter_date_from", CreatedFromSql, " 00:00:00", done, whereClauses, params);
      whereClauses, params := AddDateBound(get, lk, "filter_date_to", CreatedToSql, " 23:59:59", done + from, whereClauses, params);
      assert done + from + DateBound(get, lk, "filter_date_to", CreatedToSql, " 23:59:59") == done + DateFilter(get, lk);
    } else {
      assert done + DateFilter(get, lk) == done;
    }
  }

  /** One bound of the date block. */
  method AddDateBound(get: map<string, string>, lk: Lookups, key: string, sql: Fragment, time: string,
                      ghost done: seq<Clause>, w: seq<Fragment>, p: seq<Param>)
    returns (whereClauses: seq<Fragment>, params: seq<Param>)
    requires w == Sqls(done) && p == ParamsOf(done)
    ensures whereClauses == Sqls(done + DateBound(get, lk, key, sql, time))
    ensures params == ParamsOf(done + DateBound(get, lk, key, sql, time))
  {
    whereClauses, params := w, p;
    if Filled(get, key) {
      var date := lk.ymd(lk.sanitize(get[key]));
      if date.Some? {
        whereClauses := whereClauses + [sql];
        params := params + [StrParam(date.value + time)];
      }
    }
    OneClause(DateBound(get, lk, key, sql, time));
    SqlsAppend(done, DateBound(get, lk, key, sql, time));
  }

  /** The clause list and parameters of at most one clause. */
  lemma OneClause(cs: seq<Clause>)
    requires |cs| <= 1
    ensures Sqls(cs) == (if cs == [] then [] else [cs[0].sql])
    ensures ParamsOf(cs) == (if cs == [] then [] else cs[0].params)
  {
    if cs != [] {
      assert cs[1..] == [];
    }
  }

  /** The columns the list may be sorted by. */
  const SortColumns: seq<string> :=
    ["id", "user_id", "plan_id", "quota_total", "quota_used", "status", "created_at", "quota_renewal_date"]

  /** The sort column: the requested one when whitelisted, else `created_at`. */
  function OrderColumn(get: map<string, string>, lk: Lookups): (c: string)
    ensures c in SortColumns
    ensures Filled(get, "orderby") && lk.sanitizeOrderby(get["orderby"]) in SortColumns ==> c == lk.sanitizeOrderby(get["orderby"])
    ensures !Filled(get, "orderby") ==> c == "created_at"
  {
    var requested := if Filled(get, "orderby") then lk.sanitizeOrderby(get["orderby"]) else "created_at";
    if requested in SortColumns then requested else "created_at"
  }

  /** `ASC` only when asked for, in any letter case; `DESC` otherwise. */
  function OrderDirection(get: map<string, string>): (d: string)
    ensures d == "ASC" || d == "DESC"
    ensures d == "ASC" <==> Filled(get, "order") && ToUpper(get["order"]) == "ASC"
  {
    if Filled(get, "order") && ToUpper(get["order"]) == "ASC" then "ASC" else "DESC"
  }

  lemma LowerCaseAscSortsAscending(get: map<string, string>)
    requires "order" in get && get["order"] == "asc"
    ensures OrderDirection(get) == "ASC"
  {
    assert ToUpper("asc") == "ASC";
  }

  /** `get_pagenum`: `absint($_REQUEST['paged'])`, at least 1. */
  function PageNumber(get: map<string, string>): (p: nat)
    ensures p >= 1
    ensures "paged" !in get ==> p == 1
    ensures "paged" in get && IntVal(get["paged"]) >= 1 ==> p == IntVal(get["paged"])
    ensures "paged" in get && IntVal(get["paged"]) <= -1 ==> p == -IntVal(get["paged"])
  {
    Max(1, Abs(IntVal(if "paged" in get then get["paged"] else "")))
  }

  function Offset(paged: nat, perPage: nat): nat
    requires paged >= 1
  {
    (paged - 1) * perPage
  }

  /**
   * Pagination is consistent: row `i` of `total` lies on page
   * `i / perPage + 1`, which is at most `ceil(total / perPage)`, and that
   * page's offset window contains it; the last page is never empty.
   */
  lemma PagesCoverRows(total: nat, perPage: nat, i: nat)
    requires perPage >= 1 && i < total
    ensures var p := i / perPage + 1;
      1 <= p <= CeilDiv(total, perPage)
      && Offset(p, perPage) <= i < Offset(p, perPage) + perPage
    ensures Offset(CeilDiv(total, perPage), perPage) < total
  {
    var p := i / perPage + 1;
    var n := CeilDiv(total, perPage);
    assert (p - 1) * perPage <= i < p * perPage;
    assert (n - 1) * perPage < total <= n * perPage;
    MulMonotone(i / perPage, n, perPage);
  }

  lemma MulMonotone(a: int, b: int, d: nat)
    ensures a >= b ==> a * d >= b * d
  {
  }

  /** `LIMIT %d OFFSET %d` and the order before it. */
  function OrderLimit(column: string, direction: string): Fragment {
    [Lit(" ORDER BY q." + column + " " + direction + " LIMIT "), IntHole, Lit(" OFFSET "), IntHole]
  }

  /** A query as it is handed to `prepare`: the part after the joins, and its parameters. */
  datatype Query = Query(sql: Fragment, params: seq<Param>)

  /**
   * The listing and count queries as written: when no filter produced a
   * parameter, both are issued without `$where_sql`.
   */
  function ListingAsWritten(whereClauses: seq<Fragment>, params: seq<Param>, column: string, direction: string,
                            perPage: nat, offset: nat): (q: Query)
    ensures params == [] ==> q.sql == OrderLimit(column, direction)
  {
    if params != [] then Query(WhereSql(whereClauses) + OrderLimit(column, direction), params + [IntParam(perPage), IntParam(offset)])
    else Query(OrderLimit(column, direction), [IntParam(perPage), IntParam(offset)])
  }

  function CountAsWritten(whereClauses: seq<Fragment>, params: seq<Param>): Query {
    if params != [] then Query(WhereSql(whereClauses), params) else Query([], [])
  }

  /**
   * A usage-only filter is dropped: `filter_quota_usage=full` yields one
   * clause and no parameter, and the queries as written then carry no
   * `WHERE` at all, so full and non-full quotas are listed and counted alike.
   */
  lemma UsageOnlyFilterDropped(lk: Lookups, column: string, direction: string, perPage: nat, offset: nat)
    requires lk.sanitize("full") == "full"
    ensures var get := map["filter_quota_usage" := "full"];
      var fs := QuotaFilters(get, lk);
      && Sqls(fs) == [[Lit("q.quota_used >= q.quota_total")]] && ParamsOf(fs) == []
      && ListingAsWritten(Sqls(fs), ParamsOf(fs), column, direction, perPage, offset).sql == OrderLimit(column, direction)
      && CountAsWritten(Sqls(fs), ParamsOf(fs)).sql == []
  {
    var get := map["filter_quota_usage" := "full"];
    var fs := QuotaFilters(get, lk);
    assert UserFilter(get, lk) == [] && PlanFilter(get, lk) == [] && StatusFilter(get, lk) == [];
    assert ExpirationFilter(get, lk) == [] && DateFilter(get, lk) == [];
    assert fs == [Clause([Lit("q.quota_used >= q.quota_total")], [])];
    OneClause(fs);
  }

  /** The listing and count queries with `$where_sql` used whether or not there are parameters. */
  function Listing(whereClauses: seq<Fragment>, params: seq<Param>, column: string, direction: string,
                   perPage: nat, offset: nat): Query
  {
    Query(WhereSql(whereClauses) + OrderLimit(column, direction), params + [IntParam(perPage), IntParam(offset)])
  }

  function Count(whereClauses: seq<Fragment>, params: seq<Param>): Query {
    Query(WhereSql(whereClauses), params)
  }

  /**
   * The corrected queries keep every clause the form built, and both stay
   * well formed for `prepare`: the clauses' holes and then the two
   * pagination holes, bound by the filter parameters and then the page size
   * and offset.
   */
  lemma ListingKeepsEveryFilter(get: map<string, string>, lk: Lookups, column: string, direction: string,
                                perPage: nat, offset: nat)
    ensures var fs := QuotaFilters(get, lk);
      var listing := Listing(Sqls(fs), ParamsOf(fs), column, direction, perPage, offset);
      var count := Count(Sqls(fs), ParamsOf(fs));
      && listing.sql[..|WhereSql(Sqls(fs))|] == count.sql == WhereSql(Sqls(fs))
      && (fs != [] ==> count.sql != [])
      && Binds(Holes(listing.sql), listing.params)
      && Binds(Holes(count.sql), count.params)
  {
    var fs := QuotaFilters(get, lk);
    FilterPlaceholdersMatchParams(get, lk);
    HolesOfWhere(Sqls(fs));
    ListingBinds(Sqls(fs), ParamsOf(fs), column, direction, perPage, offset);
  }

  /** A well-formed WHERE text stays the head of the listing query, which binds its own two pagination holes. */
  lemma ListingBinds(whereClauses: seq<Fragment>, params: seq<Param>, column: string, direction: string,
                     perPage: nat, offset: nat)
    requires Binds(Holes(WhereSql(whereClauses)), params)
    ensures Listing(whereClauses, params, column, direction, perPage, offset).sql[..|WhereSql(whereClauses)|] == WhereSql(whereClauses)
    ensures Binds(Holes(Listing(whereClauses, params, column, direction, perPage, offset).sql),
                  Listing(whereClauses, params, column, direction, perPage, offset).params)
  {
    var where, tail := WhereSql(whereClauses), OrderLimit(column, direction);
    HolesAppend(where, tail);
    LimitOffsetHoles(" ORDER BY q." + column + " " + direction + " LIMIT ", " OFFSET ");
    BindsAppend(Holes(where), params, [IntHole, IntHole], [IntParam(perPage), IntParam(offset)]);
    assert (where + tail)[..|where|] == where;
  }

  /** The two queries agree exactly when a filter produced a parameter or no filter produced a clause. */
  lemma AsWrittenAgreesOnlyWithParams(whereClauses: seq<Fragment>, params: seq<Param>, column: string, direction: string,
                                      perPage: nat, offset: nat)
    ensures ListingAsWritten(whereClauses, params, column, direction, perPage, offset)
              == Listing(whereClauses, params, column, direction, perPage, offset)
            <==> params != [] || whereClauses == []
  {
    var tail := OrderLimit(column, direction);
    if params == [] && whereClauses != [] {
      var w := WhereSql(whereClauses);
      assert |w| > 0;
      assert |w + tail| > |tail|;
    }
  }

  // Columns.

  /** The plan columns a LEFT JOIN brings; None when the plan row is missing. */
  datatype PlanInfo = PlanInfo(name: string, price: string, cycle: string)

  /** `column_user`: the name in bold, then the e-mail line when there is an address. */
  function UserCell(userId: nat, u: Option<UserInfo>): (r: (string, Option<string>))
    ensures Truthy(r.0) && r.0 == UserLabel(userId, u)
    ensures r.1.Some? <==> u.Some? && Truthy(u.value.email)
    ensures r.1.Some? ==> r.1.value == u.value.email
  {
    (UserLabel(userId, u), if u.Some? && Truthy(u.value.email) then Some(u.value.email) else None)
  }

  /** `column_plan`: the plan name in bold, then price and cycle when both are set. */
  function PlanCell(planId: nat, p: Option<PlanInfo>): (r: (string, Option<(string, string)>))
    ensures Truthy(r.0) && r.0 == PlanLabel(planId, if p.Some? then Some(p.value.name) else None)
    ensures p.None? ==> r == ("Plan #" + NatToString(planId), None)
    ensures r.1.Some? <==> p.Some? && Truthy(p.value.price) && Truthy(p.value.cycle)
    ensures r.1.Some? ==> r.1.value == (p.value.price, p.value.cycle)
  {
    (PlanLabel(planId, if p.Some? then Some(p.value.name) else None),
     if p.Some? && Truthy(p.value.price) && Truthy(p.value.cycle) then Some((p.value.price, p.value.cycle)) else None)
  }

  const Grey := "#6c757d"

  const StatusColours: map<string, string> :=
    map["active" := "#28a745", "expired" := "#dc3545", "cancelled" := Grey, "pending" := "#fd7e14"]

  /** `column_status`: the status' colour (grey when unknown) and its capitalised name. */
  function StatusCell(status: string): (r: (string, string))
    ensures r.0 in StatusColours.Values
    ensures status in StatusColours ==> r.0 == StatusColours[status]
    ensures status !in StatusColours ==> r.0 == Grey
    ensures r.1 == Ucfirst(status)
  {
    assert StatusColours["cancelled"] == Grey;
    (if status in StatusColours then StatusColours[status] else Grey, Ucfirst(status))
  }

  /** Every status the filter accepts has its own entry in the colour table, and no other does. */
  lemma FilterableStatusesHaveColours()
    ensures StatusColours.Keys == set s | s in FilterStatuses
    ensures StatusCell("active").0 != StatusCell("expired").0
    ensures forall s :: s !in FilterStatuses ==> StatusCell(s).0 == Grey
  {
  }

  const Day := 24 * 60 * 60

  /**
   * The query's `expiration_status`: a NULL renewal date fails both
   * comparisons and falls to `active`.
   */
  function ExpirationStatus(renewal: Option<int>, now: int): string {
    match renewal
    case None => "active"
    case Some(r) => if r < now then "expired" else if r <= now + 7 * Day then "expires_soon" else "active"
  }

  datatype RenewalTag = NoTag | ExpiredTag | ExpiresSoonTag

  /** `column_renewal_date`: "N/A" without a date, else the date and a tag from the expiration status. */
  function RenewalCell(renewal: Option<int>, now: int, date: int -> string): (r: (string, RenewalTag))
    ensures renewal.None? ==> r == ("N/A", NoTag)
    ensures renewal.Some? ==> r.0 == date(renewal.value)
    ensures r.1 == ExpiredTag <==> renewal.Some? && renewal.value < now
    ensures r.1 == ExpiresSoonTag <==> renewal.Some? && now <= renewal.value <= now + 7 * Day
  {
    match renewal
    case None => ("N/A", NoTag)
    case Some(d) =>
      var s := ExpirationStatus(renewal, now);
      (date(d), if s == "expired" then ExpiredTag else if s == "expires_soon" then ExpiresSoonTag else NoTag)
  }

  /** The tags split the time line: expired before now, "soon" within seven days, none after. */
  lemma RenewalTagWindows(renewal: int, now: int, date: int -> string)
    ensures RenewalCell(Some(renewal), now, date).1 == ExpiredTag <==> renewal < now
    ensures RenewalCell(Some(renewal), now, date).1 == ExpiresSoonTag <==> now <= renewal <= now + 7 * Day
    ensures RenewalCell(Some(renewal), now, date).1 == NoTag <==> renewal > now + 7 * Day
  {
  }

  /** `column_last_download`: "Never" without a download, else its time. */
  function LastDownloadCell(last: Option<int>, time: int -> string): (r: string)
    ensures last.None? ==> r == "Never"
    ensures last.Some? ==> r == time(last.value)
  {
    match last
    case None => "Never"
    case Some(t) => time(t)
  }

  /**
   * The cell says "Never" exactly when the row has no download, as long as
   * a formatted time starts with a digit (the year of `Y-m-d H:i:s`).
   */
  lemma NeverIffNoDownload(last: Option<int>, time: int -> string)
    requires forall t :: |time(t)| > 0 && IsDigit(time(t)[0])
    ensures LastDownloadCell(last, time) == "Never" <==> last.None?
  {
    if last.Some? {
      var r := LastDownloadCell(last, time);
      assert IsDigit(r[0]) && !IsDigit("Never"[0]);
    }
  }
}
