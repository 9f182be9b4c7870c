/**
 * The admin list of download-log rows: the filter string built by
 * appending to `1=1`, the two queries it feeds, and the text of each
 * column.
 *
 * The request is `$_REQUEST` as a map. `sanitize_text_field` is
 * `sanitize`; `$wpdb->prepare` on the filter string is `prepare`; the
 * database's answers to the two queries are `fetch` and `countRows`.
 */
module DownloadLogsTable {
  import opened Common
  import opened Sql
  import opened QuotasListTable

  const PerPage: nat := 20

  const UserIdClause: Fragment := [Lit(" AND l.user_id = "), IntHole]
  const ProductIdClause: Fragment := [Lit(" AND l.product_id = "), IntHole]
  const BetweenClause: Fragment := [Lit(" AND l.download_time BETWEEN "), StrHole, Lit(" AND "), StrHole]

  /** An id filter: `AND column = %d` with the `absint` of the field, when the field is non-empty. */
  function IdFilter(req: map<string, string>, key: string, sql: Fragment): seq<Clause> {
    if Filled(req, key) then [Clause(sql, [IntParam(Abs(IntVal(req[key])))])] else []
  }

  /** The date range, only when both ends are non-empty. */
  function RangeFilter(req: map<string, string>, sanitize: string -> string): seq<Clause> {
    if Filled(req, "date_from") && Filled(req, "date_to")
    then [Clause(BetweenClause, [StrParam(sanitize(req["date_from"])), StrParam(sanitize(req["date_to"]))])]
    else []
  }

  /** The clauses the request turns on, in the order they are appended. */
  function LogFilters(req: map<string, string>, sanitize: string -> string): seq<Clause> {
    IdFilter(req, "user_id", UserIdClause) + IdFilter(req, "product_id", ProductIdClause) + RangeFilter(req, sanitize)
  }

  /** `1=1` followed by the clauses. */
  function LogWhere(cs: seq<Clause>): Fragment {
    [Lit("1=1")] + Concat(Sqls(cs))
  }

  /**
   * The filter block of `prepare_items`: the where string and the
   * parameters, appended to step by step.
   */
  method BuildWhere(req: map<string, string>, sanitize: string -> string) returns (where: Fragment, params: seq<Param>)
    ensures where == LogWhere(LogFilters(req, sanitize)) && params == ParamsOf(LogFilters(req, sanitize))
    ensures Binds(Holes(where), params)
    ensures PlaceholderCount(Render(where)) == |params|
  {
    ghost var done: seq<Clause> := [];
    assert LogWhere([]) == [Lit("1=1")];
    where, params := AddIdFilter(req, "user_id", UserIdClause, done, [Lit("1=1")], []);
    done := done + IdFilter(req, "user_id", UserIdClause);
    where, params := AddIdFilter(req, "product_id", ProductIdClause, done, where, params);
    done := done + IdFilter(req, "product_id", ProductIdClause);
    where, params := AddRangeFilter(req, sanitize, done, where, params);
    done := done + RangeFilter(req, sanitize);
    assert [] + IdFilter(req, "user_id", UserIdClause) == IdFilter(req, "user_id", UserIdClause);
    assert done == LogFilters(req, sanitize);
    LogWherePlaceholders(req, sanitize);
  }

  method AddIdFilter(req: map<string, string>, key: string, sql: Fragment, ghost done: seq<Clause>, w: Fragment, p: seq<Param>)
    returns (where: Fragment, params: seq<Param>)
    requires w == LogWhere(done) && p == ParamsOf(done)
    ensures where == LogWhere(done + IdFilter(req, key, sql)) && params == ParamsOf(done + IdFilter(req, key, sql))
  {
    where, params := w, p;
    if Filled(req, key) {
      where := where + sql;
      params := params + [IntParam(Abs(IntVal(req[key])))];
      AppendOne(done, Clause(sql, [IntParam(Abs(IntVal(req[key])))]));
    } else {
      assert done + [] == done;
    }
  }

  method AddRangeFilter(req: map<string, string>, sanitize: string -> string, ghost done: seq<Clause>, w: Fragment, p: seq<Param>)
    returns (where: Fragment, params: seq<Param>)
    requires w == LogWhere(done) && p == ParamsOf(done)
    ensures where == LogWhere(done + RangeFilter(req, sanitize)) && params == ParamsOf(done + RangeFilter(req, sanitize))
  {
    where, params := w, p;
    if Filled(req, "date_from") && Filled(req, "date_to") {
      where := where + BetweenClause;
      params := params + [StrParam(sanitize(req["date_from"])), StrParam(sanitize(req["date_to"]))];
      AppendOne(done, Clause(BetweenClause, [StrParam(sanitize(req["date_from"])), StrParam(sanitize(req["date_to"]))]));
    } else {
      assert done + [] == done;
    }
  }

  /** Appending one clause appends its text to the where string and its parameters to the list. */
  lemma AppendOne(done: seq<Clause>, c: Clause)
    ensures LogWhere(done + [c]) == LogWhere(done) + c.sql
    ensures ParamsOf(done + [c]) == ParamsOf(done) + c.params
  {
    SqlsAppend(done, [c]);
    assert Sqls([c]) == [c.sql] && ParamsOf([c]) == c.params;
    assert (Sqls(done) + [c.sql])[..|Sqls(done)|] == Sqls(done);
  }

  lemma IdFilterWellFormed(req: map<string, string>, key: string, text: string)
    requires NoPercent(text)
    ensures AllWellFormed(IdFilter(req, key, [Lit(text), IntHole]))
  {
    if Filled(req, key) {
      OneHole(text, IntHole, IntParam(Abs(IntVal(req[key]))));
    }
  }

  lemma LogFiltersWellFormed(req: map<string, string>, sanitize: string -> string)
    ensures AllWellFormed(LogFilters(req, sanitize))
  {
    assert NoPercent(" AND l.user_id = ") && NoPercent(" AND l.product_id = ");
    IdFilterWellFormed(req, "user_id", " AND l.user_id = ");
    IdFilterWellFormed(req, "product_id", " AND l.product_id = ");
    if Filled(req, "date_from") && Filled(req, "date_to") {
      BetweenWellFormed(sanitize(req["date_from"]), sanitize(req["date_to"]));
    }
    AllWellFormedAppend(IdFilter(req, "user_id", UserIdClause), IdFilter(req, "product_id", ProductIdClause));
    AllWellFormedAppend(IdFilter(req, "user_id", UserIdClause) + IdFilter(req, "product_id", ProductIdClause), RangeFilter(req, sanitize));
  }

  lemma BetweenTexts()
    ensures NoPercent(" AND l.download_time BETWEEN ") && NoPercent(" AND ")
  {
    assert NoPercent(" AND l.download_time ") && NoPercent("BETWEEN ");
    NoPercentConcat(" AND l.download_time ", "BETWEEN ");
    assert " AND l.download_time " + "BETWEEN " == " AND l.download_time BETWEEN ";
  }

  lemma BetweenWellFormed(from: string, to: string)
    ensures WellFormed(Clause(BetweenClause, [StrParam(from), StrParam(to)]))
  {
    BetweenTexts();
    OneHole(" AND l.download_time BETWEEN ", StrHole, StrParam(from));
    OneHole(" AND ", StrHole, StrParam(to));
    HolesAppend([Lit(" AND l.download_time BETWEEN "), StrHole], [Lit(" AND "), StrHole]);
    PlainAppend([Lit(" AND l.download_time BETWEEN "), StrHole], [Lit(" AND "), StrHole]);
    assert [Lit(" AND l.download_time BETWEEN "), StrHole] + [Lit(" AND "), StrHole] == BetweenClause;
  }

  /**
   * The string handed to `prepare` has exactly one placeholder per
   * parameter, each of the kind its parameter needs, whatever the request.
   */
  lemma LogWherePlaceholders(req: map<string, string>, sanitize: string -> string)
    ensures Binds(Holes(LogWhere(LogFilters(req, sanitize))), ParamsOf(LogFilters(req, sanitize)))
    ensures PlaceholderCount(Render(LogWhere(LogFilters(req, sanitize)))) == |ParamsOf(LogFilters(req, sanitize))|
  {
    var cs := LogFilters(req, sanitize);
    LogFiltersWellFormed(req, sanitize);
    ConcatWellFormed(cs);
    AfterOneEqualsOne(Concat(Sqls(cs)));
    RenderedPlaceholders(LogWhere(cs));
  }

  /** `1=1` adds no hole and no `%`. */
  lemma AfterOneEqualsOne(f: Fragment)
    ensures Holes([Lit("1=1")] + f) == Holes(f)
    ensures PlainLiterals(f) ==> PlainLiterals([Lit("1=1")] + f)
  {
    HolesAppend([Lit("1=1")], f);
    assert Holes([Lit("1=1")]) == [] by {
      assert [Lit("1=1")][1..] == [];
    }
    assert NoPercent("1=1");
    if PlainLiterals(f) {
      PlainAppend([Lit("1=1")], f);
    }
  }

  /** Some clause of `cs` has the text `sql`. */
  predicate HasClause(cs: seq<Clause>, sql: Fragment) {
    exists c :: c in cs && c.sql == sql
  }

  lemma HasClauseAppend(a: seq<Clause>, b: seq<Clause>, sql: Fragment)
    ensures HasClause(a + b, sql) <==> HasClause(a, sql) || HasClause(b, sql)
  {
    if HasClause(a + b, sql) {
      var c :| c in a + b && c.sql == sql;
      assert c in a || c in b;
    }
    if HasClause(a, sql) {
      var c :| c in a && c.sql == sql;
      assert c in a + b;
    }
    if HasClause(b, sql) {
      var c :| c in b && c.sql == sql;
      assert c in a + b;
    }
  }

  /** Each filter clause has a text of its own, so a clause's text tells which filter added it. */
  lemma FilterTexts(req: map<string, string>, sanitize: string -> string)
    ensures HasClause(IdFilter(req, "user_id", UserIdClause), UserIdClause) <==> Filled(req, "user_id")
    ensures !HasClause(IdFilter(req, "user_id", UserIdClause), ProductIdClause)
    ensures !HasClause(IdFilter(req, "user_id", UserIdClause), BetweenClause)
    ensures HasClause(IdFilter(req, "product_id", ProductIdClause), ProductIdClause) <==> Filled(req, "product_id")
    ensures !HasClause(IdFilter(req, "product_id", ProductIdClause), UserIdClause)
    ensures !HasClause(IdFilter(req, "product_id", ProductIdClause), BetweenClause)
    ensures HasClause(RangeFilter(req, sanitize), BetweenClause) <==> Filled(req, "date_from") && Filled(req, "date_to")
    ensures !HasClause(RangeFilter(req, sanitize), UserIdClause)
    ensures !HasClause(RangeFilter(req, sanitize), ProductIdClause)
  {
    assert UserIdClause[0] != ProductIdClause[0] && UserIdClause[0] != BetweenClause[0] && ProductIdClause[0] != BetweenClause[0];
    if Filled(req, "user_id") {
      assert IdFilter(req, "user_id", UserIdClause)[0].sql == UserIdClause;
    }
    if Filled(req, "product_id") {
      assert IdFilter(req, "product_id", ProductIdClause)[0].sql == ProductIdClause;
    }
    if Filled(req, "date_from") && Filled(req, "date_to") {
      assert RangeFilter(req, sanitize)[0].sql == BetweenClause;
    }
  }

  /**
   * Which clauses the request turns on: each id filter exactly when its
   * field is non-empty, and the date range only when both ends are given;
   * one end alone is ignored.
   */
  lemma LogFilterRules(req: map<string, string>, sanitize: string -> string)
    ensures HasClause(LogFilters(req, sanitize), UserIdClause) <==> Filled(req, "user_id")
    ensures HasClause(LogFilters(req, sanitize), ProductIdClause) <==> Filled(req, "product_id")
    ensures HasClause(LogFilters(req, sanitize), BetweenClause) <==> Filled(req, "date_from") && Filled(req, "date_to")
    ensures Filled(req, "user_id") ==> LogFilters(req, sanitize)[0] == Clause(UserIdClause, [IntParam(Abs(IntVal(req["user_id"])))])
  {
    var u := IdFilter(req, "user_id", UserIdClause);
    var pr := IdFilter(req, "product_id", ProductIdClause);
    var r := RangeFilter(req, sanitize);
    FilterTexts(req, sanitize);
    HasClauseAppend(u + pr, r, UserIdClause);
    HasClauseAppend(u, pr, UserIdClause);
    HasClauseAppend(u + pr, r, ProductIdClause);
    HasClauseAppend(u, pr, ProductIdClause);
    HasClauseAppend(u + pr, r, BetweenClause);
    HasClauseAppend(u, pr, BetweenClause);
    if Filled(req, "user_id") {
      assert (u + pr + r)[0] == u[0];
    }
  }

  /** The filter text after `prepare` has bound the parameters. */
  function PreparedWhere(req: map<string, string>, sanitize: string -> string, prepare: (string, seq<Param>) -> string): string {
    prepare(Render(LogWhere(LogFilters(req, sanitize))), ParamsOf(LogFilters(req, sanitize)))
  }

  /** The filter block followed by the `prepare` call. */
  method PrepareWhere(req: map<string, string>, sanitize: string -> string, prepare: (string, seq<Param>) -> string)
    returns (whereSql: string)
    ensures whereSql == PreparedWhere(req, sanitize, prepare)
  {
    var where, params := BuildWhere(req, sanitize);
    whereSql := prepare(Render(where), params);
  }

  /** The joins of the listing query, up to its `WHERE`. */
  const ListingSelect := "SELECT l.*, u.display_name, p.post_title FROM logs l LEFT JOIN users u ON l.user_id = u.ID"
    + " LEFT JOIN posts p ON l.product_id = p.ID WHERE "

  /** The order of the listing query, up to its page size. */
  const ListingOrder := " ORDER BY l.download_time DESC LIMIT "

  /** The listing query around the prepared filter text: only the page size and offset are left to bind. */
  function ListingQuery(whereSql: string, offset: nat): (q: Query)
    ensures Binds(Holes(q.sql), q.params) && |q.params| == 2
  {
    var head := ListingSelect + whereSql + ListingOrder;
    var sql := [Lit(head), IntHole, Lit(" OFFSET "), IntHole];
    LimitOffsetHoles(head, " OFFSET ");
    Query(sql, [IntParam(PerPage), IntParam(offset)])
  }

  /** The count query: the same filter text, no pagination. */
  function CountSql(whereSql: string): string {
    "SELECT COUNT(*) FROM logs l WHERE " + whereSql
  }

  /** One joined row: `display_name` and `post_title` are "" when the join found nothing. */
  datatype LogItem = LogItem(id: nat, userId: nat, productId: nat, downloadTime: string, displayName: string, postTitle: string)

  /** `get_columns`. */
  const Columns: seq<(string, string)> :=
    [("id", "ID"), ("user", "User"), ("product", "Product"), ("download_time", "Download Time"), ("actions", "Action")]

  /** `display_name ?: 'User #' . user_id`: no fallback to the login. */
  function LogUserLabel(item: LogItem): (r: string)
    ensures Truthy(r)
    ensures Truthy(item.displayName) ==> r == item.displayName
    ensures !Truthy(item.displayName) ==> r == "User #" + NatToString(item.userId)
  {
    if Truthy(item.displayName) then item.displayName else "User #" + NatToString(item.userId)
  }

  /** `post_title ?: 'Product #' . product_id`. */
  function ProductLabel(item: LogItem): (r: string)
    ensures Truthy(r)
    ensures Truthy(item.postTitle) ==> r == item.postTitle
    ensures !Truthy(item.postTitle) ==> r == "Product #" + NatToString(item.productId)
  {
    if Truthy(item.postTitle) then item.postTitle else "Product #" + NatToString(item.productId)
  }

  /**
   * `column_default`: `stamp` renders the download time and `deleteLink`
   * the nonce-protected delete button of a row id.
   */
  function ColumnDefault(item: LogItem, column: string, stamp: string -> string, deleteLink: nat -> string): (r: string)
    ensures (forall c :: c in Columns ==> c.0 != column) ==> r == ""
    ensures column == "id" ==> IntVal(r) == item.id
    ensures column == "user" ==> r == LogUserLabel(item)
    ensures column == "product" ==> r == ProductLabel(item)
  {
    if column == "id" then
      IntValOfIntToString(item.id);
      NatToString(item.id)
    else if column == "user" then LogUserLabel(item)
    else if column == "product" then ProductLabel(item)
    else if column == "download_time" then stamp(item.downloadTime)
    else if column == "actions" then deleteLink(item.id)
    else
      assert ("id", "ID") in Columns && ("user", "User") in Columns && ("product", "Product") in Columns;
      assert ("download_time", "Download Time") in Columns && ("actions", "Action") in Columns;
      ""
  }

  /**
   * Every listed column has text of its own, and the user and product
   * columns are never blank.
   */
  lemma EveryColumnRendered(item: LogItem, stamp: string -> string, deleteLink: nat -> string)
    ensures forall c :: c in Columns && c.0 in {"user", "product"} ==> Truthy(ColumnDefault(item, c.0, stamp, deleteLink))
    ensures ColumnDefault(item, "download_time", stamp, deleteLink) == stamp(item.downloadTime)
    ensures ColumnDefault(item, "actions", stamp, deleteLink) == deleteLink(item.id)
  {
  }

  /**
   * The log list names a user differently from the quota list: both show
   * a non-empty display name, but without one the quota list falls back
   * to the login and only then to `User #id`, while the log list goes
   * straight to `User #id`.
   */
  lemma UserNamesDifferFromQuotaList(item: LogItem, login: string, email: string)
    ensures var quota := UserCell(item.userId, Some(Quotas.UserInfo(item.displayName, login, email))).0;
      && (Truthy(item.displayName) ==> LogUserLabel(item) == quota)
      && (!Truthy(item.displayName) && Truthy(login) ==> quota == login && LogUserLabel(item) == "User #" + NatToString(item.userId))
  {
  }

  /** The table object: the rows of the current page and the number of matching rows. */
  class LogsTable {
    var logs: seq<LogItem>
    var totalItems: nat
    var perPage: nat

    constructor ()
      ensures logs == [] && totalItems == 0 && perPage == 0
    {
      logs, totalItems, perPage := [], 0, 0;
    }

    /** `prepare_items`. */
    method PrepareItems(req: map<string, string>, sanitize: string -> string, prepare: (string, seq<Param>) -> string,
                        fetch: Query -> seq<LogItem>, countRows: string -> nat)
      modifies this
      ensures logs == fetch(ListingQuery(PreparedWhere(req, sanitize, prepare), Offset(PageNumber(req), PerPage)))
      ensures totalItems == countRows(CountSql(PreparedWhere(req, sanitize, prepare)))
      ensures perPage == PerPage
    {
      var paged := PageNumber(req);
      var offset := Offset(paged, PerPage);
      var whereSql := PrepareWhere(req, sanitize, prepare);
      logs := fetch(ListingQuery(whereSql, offset));
      totalItems := countRows(CountSql(whereSql));
      perPage := PerPage;
    }
  }
}
