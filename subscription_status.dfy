/**
 * The `[shutterpress_user_subscription]` shortcode: the user's current
 * subscription card and the list of all their subscriptions.
 *
 * Rows come joined with their plan (`LEFT JOIN plans`): the page reads
 * the plan's name, cycle, price and unlimited flag, all NULL when the plan
 * row is gone. Dates are the second their day starts; `today` is
 * `CURDATE()`; `fmt` renders a date; `priceText` is how the database
 * returns a plan's price.
 */
module SubscriptionStatus {
  import opened Common
  import opened Quotas

  // Selecting the rows.

  /** Active, and renewing today or later, or never. */
  predicate Current(user: nat, today: int, q: QuotaRow) {
    ActiveFor(user, q) && (q.renewalDate.None? || q.renewalDate.value >= today)
  }

  /** The current subscription: the newest active row whose renewal date has not passed. */
  function CurrentSubscription(rows: seq<QuotaRow>, user: nat, today: int): (r: Option<nat>)
    ensures r.None? <==> forall j :: 0 <= j < |rows| ==> !Current(user, today, rows[j])
    ensures r.Some? ==> r.value < |rows| && Current(user, today, rows[r.value])
    ensures r.Some? ==> forall j :: 0 <= j < |rows| && Current(user, today, rows[j]) ==> rows[j].createdAt <= rows[r.value].createdAt
  {
    NewestWhere(rows, q => Current(user, today, q))
  }

  /**
   * The page and the download gateway agree on the row while the row the
   * gateway uses has not passed its renewal date; once it has, the page
   * shows another row or none, while the gateway keeps serving it.
   */
  lemma CurrentVersusGateway(rows: seq<QuotaRow>, user: nat, today: int)
    requires NewestActive(rows, user).Some?
    ensures var g := NewestActive(rows, user).value;
      && (rows[g].renewalDate.None? || rows[g].renewalDate.value >= today ==> CurrentSubscription(rows, user, today) == Some(g))
      && (rows[g].renewalDate.Some? && rows[g].renewalDate.value < today ==> CurrentSubscription(rows, user, today) != Some(g))
  {
    var g := NewestActive(rows, user).value;
    if rows[g].renewalDate.None? || rows[g].renewalDate.value >= today {
      NewestWhereNarrowed(rows, q => ActiveFor(user, q), q => Current(user, today, q));
    }
  }

  /** The user's rows, in table order. */
  function OfUser(rows: seq<QuotaRow>, user: nat): (r: seq<QuotaRow>)
    ensures forall q :: q in r <==> q in rows && q.userId == user
    ensures multiset(r) <= multiset(rows)
  {
    if rows == [] then []
    else
      var rest := OfUser(rows[..|rows| - 1], user);
      assert rows == rows[..|rows| - 1] + [rows[|rows| - 1]];
      if rows[|rows| - 1].userId == user then rest + [rows[|rows| - 1]] else rest
  }

  predicate NewestFirstOrder(s: seq<QuotaRow>) {
    forall i, j :: 0 <= i < j < |s| ==> s[i].createdAt >= s[j].createdAt
  }

  /** Insert after every row at least as new, so rows of equal age keep their order. */
  function Insert(x: QuotaRow, s: seq<QuotaRow>): seq<QuotaRow> {
    if s == [] then [x]
    else if s[0].createdAt < x.createdAt then [x] + s
    else [s[0]] + Insert(x, s[1..])
  }

  /** `ORDER BY created_at DESC`, ties in table order. */
  function NewestFirst(rows: seq<QuotaRow>): seq<QuotaRow> {
    if rows == [] then [] else Insert(rows[|rows| - 1], NewestFirst(rows[..|rows| - 1]))
  }

  /** No row in `s` is newer than `c`. */
  predicate NoneNewerThan(s: seq<QuotaRow>, c: int) {
    forall k :: 0 <= k < |s| ==> s[k].createdAt <= c
  }

  lemma ConsOrder(a: QuotaRow, t: seq<QuotaRow>)
    requires NoneNewerThan(t, a.createdAt) && NewestFirstOrder(t)
    ensures NewestFirstOrder([a] + t)
  {
    var r := [a] + t;
    forall i, j | 0 <= i < j < |r|
      ensures r[i].createdAt >= r[j].createdAt
    {
      assert r[j] == t[j - 1];
      if i > 0 {
        assert r[i] == t[i - 1];
      }
    }
  }

  lemma TailOrder(s: seq<QuotaRow>)
    requires s != [] && NewestFirstOrder(s)
    ensures NewestFirstOrder(s[1..]) && NoneNewerThan(s[1..], s[0].createdAt)
  {
    var t := s[1..];
    forall i, j | 0 <= i < j < |t|
      ensures t[i].createdAt >= t[j].createdAt
    {
      assert t[i] == s[i + 1] && t[j] == s[j + 1];
    }
    forall k | 0 <= k < |t|
      ensures t[k].createdAt <= s[0].createdAt
    {
      assert t[k] == s[k + 1];
    }
  }

  lemma {:induction false} InsertBound(x: QuotaRow, s: seq<QuotaRow>, c: int)
    requires NoneNewerThan(s, c) && x.createdAt <= c
    ensures NoneNewerThan(Insert(x, s), c)
  {
    if s != [] && s[0].createdAt >= x.createdAt {
      InsertBound(x, s[1..], c);
      var r := Insert(x, s);
      forall k | 0 <= k < |r|
        ensures r[k].createdAt <= c
      {
        if k > 0 {
          assert r[k] == Insert(x, s[1..])[k - 1];
        }
      }
    }
  }

  lemma {:induction false} InsertPermutes(x: QuotaRow, s: seq<QuotaRow>)
    ensures multiset(Insert(x, s)) == multiset(s) + multiset{x}
  {
    if s != [] && s[0].createdAt >= x.createdAt {
      InsertPermutes(x, s[1..]);
      assert s == [s[0]] + s[1..];
    }
  }

  lemma {:induction false} InsertKeepsOrder(x: QuotaRow, s: seq<QuotaRow>)
    requires NewestFirstOrder(s)
    ensures NewestFirstOrder(Insert(x, s))
  {
    if s == [] {
    } else if s[0].createdAt < x.createdAt {
      TailOrder(s);
      assert NoneNewerThan(s, x.createdAt);
      ConsOrder(x, s);
    } else {
      TailOrder(s);
      InsertKeepsOrder(x, s[1..]);
      InsertBound(x, s[1..], s[0].createdAt);
      ConsOrder(s[0], Insert(x, s[1..]));
    }
  }

  lemma {:induction false} NewestFirstSorts(rows: seq<QuotaRow>)
    ensures NewestFirstOrder(NewestFirst(rows))
    ensures multiset(NewestFirst(rows)) == multiset(rows)
  {
    if rows != [] {
      var init, last := rows[..|rows| - 1], rows[|rows| - 1];
      NewestFirstSorts(init);
      assert NewestFirst(rows) == Insert(last, NewestFirst(init));
      InsertKeepsOrder(last, NewestFirst(init));
      InsertPermutes(last, NewestFirst(init));
      assert rows == init + [last];
      assert multiset(rows) == multiset(init) + multiset{last};
    }
  }

  /** The history: every row of the user, whatever its status. */
  function History(rows: seq<QuotaRow>, user: nat): seq<QuotaRow> {
    NewestFirst(OfUser(rows, user))
  }

  /**
   * The history holds exactly the user's rows, each as often as in the
   * table, newest first, whatever their status.
   */
  lemma HistoryIsUsersRowsNewestFirst(rows: seq<QuotaRow>, user: nat)
    ensures NewestFirstOrder(History(rows, user))
    ensures multiset(History(rows, user)) == multiset(OfUser(rows, user))
    ensures forall q :: q in History(rows, user) <==> q in rows && q.userId == user
  {
    NewestFirstSorts(OfUser(rows, user));
    var h := History(rows, user);
    forall q
      ensures q in h <==> q in OfUser(rows, user)
    {
      assert q in h <==> q in multiset(h);
      assert q in OfUser(rows, user) <==> q in multiset(OfUser(rows, user));
    }
  }

  // The joined row.

  /**
   * A quota row as the page reads it: plan name, cycle and price from the
   * plan ("" when missing), and the plan's unlimited flag, which takes the
   * place of the quota row's own (false when the plan is missing).
   */
  datatype View = View(row: QuotaRow, planName: string, cycle: string, price: string, isUnlimited: bool)

  function Join(q: QuotaRow, plan: Option<PlanRow>, priceText: real -> string): (v: View)
    ensures v.row == q
    ensures v.isUnlimited <==> plan.Some? && plan.value.isUnlimited
  {
    match plan
    case None => View(q, "", "", "", false)
    case Some(p) => View(q, p.name, p.billingCycle, priceText(p.price), p.isUnlimited)
  }

  /**
   * The page takes "unlimited" from the plan and the gateway from the
   * quota row: a row marked unlimited whose plan is gone or limited is
   * shown as quota-based although the gateway never refuses it.
   */
  lemma UnlimitedFlagComesFromPlan(q: QuotaRow, plan: Option<PlanRow>, priceText: real -> string)
    requires q.isUnlimited
    requires plan.None? || !plan.value.isUnlimited
    ensures !Join(q, plan, priceText).isUnlimited && !LimitReached(q)
  {
  }

  // The current subscription card.

  /** `max(0, total - used)`. */
  function Remaining(total: int, used: int): (r: nat)
    ensures r >= total - used
    ensures used < total ==> r == total - used
    ensures r == 0 <==> used >= total
  {
    Max(0, total - used)
  }

  /** The share used, in percent: 0 for a zero total, capped at 100. */
  function Percentage(total: int, used: int): (p: real)
    ensures p <= 100.0
    ensures total <= 0 ==> p == 0.0
    ensures total > 0 && used >= 0 ==> 0.0 <= p
    ensures total > 0 && used >= total ==> p == 100.0
    ensures total > 0 && used < total ==> p * total as real == used as real * 100.0
  {
    if total > 0 then
      var share := (used as real / total as real) * 100.0;
      if share < 100.0 then share else 100.0
    else 0.0
  }

  function ProgressClass(p: real): (c: string)
    ensures c in {"critical", "warning", "normal"}
    ensures c == "critical" <==> p >= 90.0
    ensures c == "warning" <==> 70.0 <= p < 90.0
  {
    if p >= 90.0 then "critical" else if p >= 70.0 then "warning" else "normal"
  }

  /**
   * An exhausted quota with a positive total always shows a critical bar,
   * but an exhausted quota of zero downloads shows 0% and a normal bar.
   */
  lemma ExhaustedQuotaBars(total: int, used: int)
    ensures total > 0 && used >= total ==> ProgressClass(Percentage(total, used)) == "critical"
    ensures total == 0 && used >= 0 ==> Percentage(total, used) == 0.0 && ProgressClass(Percentage(total, used)) == "normal"
  {
  }

  /** The bar's class never gets less severe as usage grows. */
  lemma ProgressClassMonotone(p1: real, p2: real)
    requires p1 <= p2
    ensures ProgressClass(p1) == "critical" ==> ProgressClass(p2) == "critical"
    ensures ProgressClass(p1) == "warning" ==> ProgressClass(p2) != "normal"
  {
  }

  datatype Card = Card(
    planName: string, planType: string, price: Option<(string, string)>,
    stats: seq<(string, string)>, progress: Option<(real, string)>)

  /** The price line appears only when both the price and the cycle are non-empty. */
  function PriceLine(v: View): (r: Option<(string, string)>)
    ensures r.Some? <==> Truthy(v.price) && Truthy(v.cycle)
  {
    if Truthy(v.price) && Truthy(v.cycle) then Some((v.price, v.cycle)) else None
  }

  function RenewalText(v: View, fmt: int -> string): string {
    if v.row.renewalDate.Some? then fmt(v.row.renewalDate.value) else "N/A"
  }

  /**
   * The card: an unlimited plan shows ∞ and what was downloaded, and no
   * progress bar; any other shows total, used and remaining, and the bar.
   * The renewal date comes last either way.
   */
  function CurrentCard(v: View, fmt: int -> string): (c: Card)
    ensures c.planName == v.planName && c.price == PriceLine(v)
    ensures v.isUnlimited ==> |c.stats| == 3 && c.stats[0] == ("∞", "Unlimited") && c.progress.None?
    ensures v.isUnlimited ==> c.stats[1] == (IntToString(v.row.quotaUsed), "Downloaded")
    ensures !v.isUnlimited ==> |c.stats| == 4 && c.progress.Some?
    ensures !v.isUnlimited ==> c.stats[0] == (IntToString(v.row.quotaTotal), "Total Downloads")
    ensures !v.isUnlimited ==> c.stats[1] == (IntToString(v.row.quotaUsed), "Used")
    ensures !v.isUnlimited ==> c.stats[2] == (IntToString(Remaining(v.row.quotaTotal, v.row.quotaUsed)), "Remaining")
    ensures !v.isUnlimited ==> c.progress.value.0 == Percentage(v.row.quotaTotal, v.row.quotaUsed)
    ensures !v.isUnlimited ==> c.progress.value.1 == ProgressClass(c.progress.value.0)
    ensures c.stats[|c.stats| - 1] == (RenewalText(v, fmt), "Renewal Date")
  {
    var q := v.row;
    var renewal := (RenewalText(v, fmt), "Renewal Date");
    if v.isUnlimited then
      Card(v.planName, "Unlimited Downloads", PriceLine(v),
           [("∞", "Unlimited"), (IntToString(q.quotaUsed), "Downloaded"), renewal], None)
    else
      var p := Percentage(q.quotaTotal, q.quotaUsed);
      Card(v.planName, "Quota-based Plan", PriceLine(v),
           [(IntToString(q.quotaTotal), "Total Downloads"), (IntToString(q.quotaUsed), "Used"),
            (IntToString(Remaining(q.quotaTotal, q.quotaUsed)), "Remaining"), renewal],
           Some((p, ProgressClass(p))))
  }

  /**
   * The numbers a quota-based card shows read back as the row's counts, and
   * used plus remaining is the total unless the row is overdrawn.
   */
  lemma CardShowsTheCounts(v: View, fmt: int -> string)
    requires !v.isUnlimited
    ensures var c := CurrentCard(v, fmt);
      && IntVal(c.stats[0].0) == v.row.quotaTotal
      && IntVal(c.stats[1].0) == v.row.quotaUsed
      && (v.row.quotaUsed <= v.row.quotaTotal ==> IntVal(c.stats[1].0) + IntVal(c.stats[2].0) == IntVal(c.stats[0].0))
      && (v.row.quotaUsed > v.row.quotaTotal ==> IntVal(c.stats[2].0) == 0)
  {
    IntValOfIntToString(v.row.quotaTotal);
    IntValOfIntToString(v.row.quotaUsed);
    IntValOfIntToString(Remaining(v.row.quotaTotal, v.row.quotaUsed));
  }

  // The history items.

  const StatusIcons: map<string, string> :=
    map["active" := "dashicons-yes-alt", "expired" := "dashicons-clock",
        "cancelled" := "dashicons-dismiss", "pending" := "dashicons-hourglass"]

  /**
   * `$status_icon[$status] ?? 'dashicons-marker'`: each known status has an
   * icon of its own, and an unknown status gets the marker, which no known
   * status uses.
   */
  function StatusIcon(status: string): (icon: string)
    ensures status in StatusIcons ==> icon == StatusIcons[status]
    ensures icon == "dashicons-marker" <==> status !in StatusIcons
    ensures forall s :: s in StatusIcons && StatusIcons[s] == icon ==> s == status
  {
    if status in StatusIcons then StatusIcons[status] else "dashicons-marker"
  }

  datatype Item = Item(
    icon: string, planName: string, status: string, kind: string, price: Option<(string, string)>,
    started: string, renewal: Option<(string, string)>, reason: Option<string>, usage: string)

  function HistoryItem(v: View, fmt: int -> string): (it: Item)
    ensures Truthy(it.planName)
    ensures it.status == Ucfirst(v.row.status)
    ensures it.started == fmt(v.row.createdAt)
    ensures it.renewal.Some? <==> v.row.renewalDate.Some?
    ensures it.renewal.Some? ==> (it.renewal.value.0 == "Renews:" <==> v.row.status == Active)
    ensures it.reason.Some? <==> v.row.status == "cancelled" && Truthy(v.row.cancelReason)
  {
    var q := v.row;
    Item(StatusIcon(q.status),
         if Truthy(v.planName) then v.planName else "Unknown Plan",
         Ucfirst(q.status),
         if v.isUnlimited then "Unlimited" else IntToString(q.quotaTotal) + " downloads",
         PriceLine(v),
         fmt(q.createdAt),
         if q.renewalDate.Some? then Some((if q.status == Active then "Renews:" else "Expired:", fmt(q.renewalDate.value))) else None,
         if q.status == "cancelled" && Truthy(q.cancelReason) then Some(q.cancelReason) else None,
         if v.isUnlimited then IntToString(q.quotaUsed) + " downloads used"
         else IntToString(q.quotaUsed) + " of " + IntToString(q.quotaTotal) + " downloads used")
  }

  /**
   * Every row that is not active is labelled "Expired:" beside its renewal
   * date, a pending row renewing in the future included.
   */
  lemma NonActiveRowsSayExpired(v: View, fmt: int -> string)
    requires v.row.renewalDate.Some? && v.row.status != Active
    ensures HistoryItem(v, fmt).renewal == Some(("Expired:", fmt(v.row.renewalDate.value)))
  {
  }

  // The page.

  datatype Page =
    | LoginRequired
    | Subscription(current: Option<Card>, browsePlans: Option<nat>, history: seq<Item>)

  /**
   * The shortcode's output. `planOf` finds a plan row by id; `plansPage`
   * is the page holding the plans shortcode, if any, linked from the
   * no-subscription card.
   */
  function Render(loggedIn: bool, user: nat, rows: seq<QuotaRow>, today: int, planOf: nat -> Option<PlanRow>,
                  priceText: real -> string, plansPage: Option<nat>, fmt: int -> string): (p: Page)
    ensures !loggedIn <==> p.LoginRequired?
    ensures loggedIn ==> (p.current.Some? <==> CurrentSubscription(rows, user, today).Some?)
    ensures loggedIn && p.current.None? ==> p.browsePlans == plansPage
    ensures loggedIn ==> |p.history| == |History(rows, user)|
    ensures loggedIn ==> forall k :: 0 <= k < |p.history| ==>
      var q := History(rows, user)[k];
      p.history[k] == HistoryItem(Join(q, planOf(q.planId), priceText), fmt)
    ensures loggedIn && p.current.Some? ==>
      var q := rows[CurrentSubscription(rows, user, today).value];
      p.current.value == CurrentCard(Join(q, planOf(q.planId), priceText), fmt)
  {
    if !loggedIn then LoginRequired
    else
      var cur := CurrentSubscription(rows, user, today);
      var h := History(rows, user);
      Subscription(
        if cur.Some? then Some(CurrentCard(Join(rows[cur.value], planOf(rows[cur.value].planId), priceText), fmt)) else None,
        if cur.Some? then None else plansPage,
        seq(|h|, k requires 0 <= k < |h| => HistoryItem(Join(h[k], planOf(h[k].planId), priceText), fmt)))
  }
}
