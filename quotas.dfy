/**
 * The rows of the user-quota and download-log tables, and the query every
 * entitlement decision starts from: a user's newest row with a given
 * property, by `created_at`.
 *
 * `ORDER BY created_at DESC LIMIT 1` leaves the choice among rows with the
 * same `created_at` to the database; the model fixes it to the earliest such
 * row in table order.
 */
module Quotas {
  import opened Common

  /** One row of the user-quota table. Times are seconds; dates are the second their day starts. */
  datatype QuotaRow = QuotaRow(
    id: nat,
    userId: nat,
    planId: nat,
    quotaTotal: int,
    quotaUsed: int,
    isUnlimited: bool,
    status: string,
    renewalDate: Option<int>,
    createdAt: int,
    cancelReason: string,
    lastDownload: Option<int>)

  /** One row of the download-log table. */
  datatype LogRow = LogRow(userId: nat, productId: nat, downloadTime: int, downloadType: string)

  /**
   * One row of the subscription-plan table; `productId` is 0 while no
   * WooCommerce product is linked, and `price` is the posted price read
   * with `floatval`.
   */
  datatype PlanRow = PlanRow(
    id: nat,
    name: string,
    quota: int,
    price: real,
    billingCycle: string,
    isUnlimited: bool,
    productId: nat)

  const Active := "active"
  const Expired := "expired"

  /**
   * Index of the newest row satisfying `keep`: the largest `created_at`,
   * the earliest position among equal ones; None when no row satisfies `keep`.
   */
  function NewestWhere(rows: seq<QuotaRow>, keep: QuotaRow -> bool): (r: Option<nat>)
    ensures r.None? <==> forall j :: 0 <= j < |rows| ==> !keep(rows[j])
    ensures r.Some? ==> r.value < |rows| && keep(rows[r.value])
    ensures r.Some? ==> forall j :: 0 <= j < |rows| && keep(rows[j]) ==> rows[j].createdAt <= rows[r.value].createdAt
    ensures r.Some? ==> forall j :: 0 <= j < r.value && keep(rows[j]) ==> rows[j].createdAt < rows[r.value].createdAt
  {
    if |rows| == 0 then None
    else
      var last := |rows| - 1;
      var rest := NewestWhere(rows[..last], keep);
      if !keep(rows[last]) then rest
      else if rest.None? then Some(last)
      else if rows[last].createdAt > rows[rest.value].createdAt then Some(last)
      else rest
  }

  /** `WHERE user_id = %d AND status = 'active'`. */
  predicate ActiveFor(user: nat, q: QuotaRow) {
    q.userId == user && q.status == Active
  }

  /**
   * The row both the download gateway and the product-page button consult:
   * the user's newest `active` row, with no test of its renewal date.
   */
  function NewestActive(rows: seq<QuotaRow>, user: nat): (r: Option<nat>)
    ensures r.None? <==> forall j :: 0 <= j < |rows| ==> !ActiveFor(user, rows[j])
    ensures r.Some? ==> r.value < |rows| && ActiveFor(user, rows[r.value])
    ensures r.Some? ==> forall j :: 0 <= j < |rows| && ActiveFor(user, rows[j]) ==> rows[j].createdAt <= rows[r.value].createdAt
  {
    NewestWhere(rows, q => ActiveFor(user, q))
  }

  /** The gateway's refusal test on the selected row. */
  predicate LimitReached(q: QuotaRow) {
    !q.isUnlimited && q.quotaUsed >= q.quotaTotal
  }

  /** Row ids are the table's primary key. */
  predicate UniqueIds(rows: seq<QuotaRow>) {
    forall i, j :: 0 <= i < |rows| && 0 <= j < |rows| && rows[i].id == rows[j].id ==> i == j
  }

  /** `UPDATE ... SET quota_used = v WHERE id = id`. */
  function SetUsed(rows: seq<QuotaRow>, id: nat, v: int): (r: seq<QuotaRow>)
    ensures |r| == |rows|
    ensures forall k :: 0 <= k < |rows| ==> r[k] == if rows[k].id == id then rows[k].(quotaUsed := v) else rows[k]
  {
    seq(|rows|, k requires 0 <= k < |rows| => if rows[k].id == id then rows[k].(quotaUsed := v) else rows[k])
  }

  /** With unique ids, updating by id changes exactly the row at that position. */
  lemma SetUsedOneRow(rows: seq<QuotaRow>, i: nat, v: int)
    requires UniqueIds(rows) && i < |rows|
    ensures SetUsed(rows, rows[i].id, v) == rows[i := rows[i].(quotaUsed := v)]
    ensures UniqueIds(SetUsed(rows, rows[i].id, v))
  {
    var r := SetUsed(rows, rows[i].id, v);
    forall k | 0 <= k < |rows|
      ensures r[k] == rows[i := rows[i].(quotaUsed := v)][k]
    {
      if k != i {
        assert rows[k].id != rows[i].id;
      }
    }
  }

  /**
   * The selection depends only on which rows qualify and on their creation
   * times: changing any other column leaves the chosen index as it was.
   */
  lemma {:induction false} NewestWhereIgnoresOtherColumns(rows: seq<QuotaRow>, rows2: seq<QuotaRow>, keep: QuotaRow -> bool)
    requires |rows| == |rows2|
    requires forall k :: 0 <= k < |rows| ==> keep(rows[k]) == keep(rows2[k]) && rows[k].createdAt == rows2[k].createdAt
    ensures NewestWhere(rows, keep) == NewestWhere(rows2, keep)
  {
    if |rows| > 0 {
      var last := |rows| - 1;
      NewestWhereIgnoresOtherColumns(rows[..last], rows2[..last], keep);
    }
  }

  /**
   * Narrowing the selection keeps the newest row whenever that row passes
   * the narrower test: among ties the earliest row wins in both.
   */
  lemma NewestWhereNarrowed(rows: seq<QuotaRow>, wide: QuotaRow -> bool, narrow: QuotaRow -> bool)
    requires forall q :: narrow(q) ==> wide(q)
    requires NewestWhere(rows, wide).Some? && narrow(rows[NewestWhere(rows, wide).value])
    ensures NewestWhere(rows, narrow) == NewestWhere(rows, wide)
  {
    var w := NewestWhere(rows, wide).value;
    var n := NewestWhere(rows, narrow).value;
    assert wide(rows[n]);
    assert rows[n].createdAt == rows[w].createdAt;
  }

  /** The user columns a LEFT JOIN brings; None when the user row is missing. */
  datatype UserInfo = UserInfo(displayName: string, login: string, email: string)

  /**
   * `display_name ?: user_login ?: 'User #' . user_id`: the name an admin
   * screen shows for the owner of a row. It is never blank.
   */
  function UserLabel(userId: nat, u: Option<UserInfo>): (r: string)
    ensures Truthy(r)
    ensures u.Some? && Truthy(u.value.displayName) ==> r == u.value.displayName
    ensures u.Some? && !Truthy(u.value.displayName) && Truthy(u.value.login) ==> r == u.value.login
    ensures (u.None? || !Truthy(u.value.displayName)) && !(u.Some? && Truthy(u.value.login)) ==>
      r == "User #" + NatToString(userId)
  {
    if u.Some? && Truthy(u.value.displayName) then u.value.displayName
    else if u.Some? && Truthy(u.value.login) then u.value.login
    else "User #" + NatToString(userId)
  }

  /** `plan_name ?: 'Plan #' . plan_id`; None when the plan row is missing. It is never blank. */
  function PlanLabel(planId: nat, planName: Option<string>): (r: string)
    ensures Truthy(r)
    ensures planName.Some? && Truthy(planName.value) ==> r == planName.value
    ensures !(planName.Some? && Truthy(planName.value)) ==> r == "Plan #" + NatToString(planId)
  {
    if planName.Some? && Truthy(planName.value) then planName.value else "Plan #" + NatToString(planId)
  }
}
