/**
 * The storefront wiring: the two My Account menu entries, the lookup of
 * the page carrying a shortcode, the product-query hook that hides plan
 * products, and the dashboard pages that render at most once per request.
 */
module PublicInit {
  import opened Common

  // The account menu.

  /** A PHP ordered array of menu items, `endpoint => label`, keys in insertion order. */
  type MenuItems = seq<(string, string)>

  predicate HasEndpoint(items: MenuItems, key: string) {
    exists k :: 0 <= k < |items| && items[k].0 == key
  }

  /** `$items[$key] = $title`: overwritten in place when the key exists, appended otherwise. */
  function SetItem(items: MenuItems, key: string, title: string): (r: MenuItems)
    ensures HasEndpoint(items, key) ==> |r| == |items| && forall k :: 0 <= k < |items| ==>
      r[k] == (if items[k].0 == key then (key, title) else items[k])
    ensures !HasEndpoint(items, key) ==> r == items + [(key, title)]
  {
    if HasEndpoint(items, key) then seq(|items|, k requires 0 <= k < |items| => if items[k].0 == key then (key, title) else items[k])
    else items + [(key, title)]
  }

  /** A PHP array never holds a key twice. */
  predicate DistinctEndpoints(items: MenuItems) {
    forall i, j :: 0 <= i < j < |items| ==> items[i].0 != items[j].0
  }

  /** `$items[key] === label`. */
  predicate Labels(items: MenuItems, key: string, text: string) {
    exists k :: 0 <= k < |items| && items[k] == (key, text)
  }

  /**
   * `SetItem` is PHP's array write: afterwards the key holds the new label
   * and no other, every other key keeps its label and its position, a new
   * key goes last, and keys stay distinct.
   */
  lemma SetItemIsArrayWrite(items: MenuItems, key: string, title: string)
    requires DistinctEndpoints(items)
    ensures var r := SetItem(items, key, title);
      && DistinctEndpoints(r)
      && Labels(r, key, title)
      && (forall text :: Labels(r, key, text) ==> text == title)
      && (forall c, text :: c != key ==> (Labels(r, c, text) <==> Labels(items, c, text)))
      && |r| == |items| + (if HasEndpoint(items, key) then 0 else 1)
      && (forall k :: 0 <= k < |items| ==> r[k].0 == items[k].0)
  {
    var r := SetItem(items, key, title);
    if HasEndpoint(items, key) {
      var k :| 0 <= k < |items| && items[k].0 == key;
      assert r[k] == (key, title);
    } else {
      assert r[|items|] == (key, title);
    }
    forall c, text | c != key
      ensures Labels(r, c, text) <==> Labels(items, c, text)
    {
      if Labels(items, c, text) {
        var k :| 0 <= k < |items| && items[k] == (c, text);
        assert r[k] == (c, text);
      }
      if Labels(r, c, text) {
        var k :| 0 <= k < |r| && r[k] == (c, text);
        assert items[k] == (c, text);
      }
    }
  }

  const SubscriptionEndpoint := "shutterpress-subscription"
  const DownloadsEndpoint := "shutterpress-downloads"

  /** The `woocommerce_account_menu_items` filter. */
  function AccountMenu(items: MenuItems): MenuItems {
    SetItem(SetItem(items, SubscriptionEndpoint, "My Subscription"), DownloadsEndpoint, "Download History")
  }

  /**
   * The filter keeps every existing item in place (with its label, unless
   * it is one of the two ShutterPress endpoints), adds only the two
   * endpoints, and after it both are present with their labels.
   */
  lemma AccountMenuKeepsItems(items: MenuItems)
    ensures var r := AccountMenu(items);
      && |items| <= |r| <= |items| + 2
      && (forall k :: 0 <= k < |items| ==> r[k].0 == items[k].0)
      && (forall k :: 0 <= k < |items| && items[k].0 != SubscriptionEndpoint && items[k].0 != DownloadsEndpoint ==> r[k] == items[k])
      && (forall k :: |items| <= k < |r| ==> r[k].0 in {SubscriptionEndpoint, DownloadsEndpoint})
      && (forall k :: 0 <= k < |r| && r[k].0 == SubscriptionEndpoint ==> r[k].1 == "My Subscription")
      && (forall k :: 0 <= k < |r| && r[k].0 == DownloadsEndpoint ==> r[k].1 == "Download History")
      && HasEndpoint(r, SubscriptionEndpoint) && HasEndpoint(r, DownloadsEndpoint)
  {
    var m := SetItem(items, SubscriptionEndpoint, "My Subscription");
    var r := SetItem(m, DownloadsEndpoint, "Download History");
    assert HasEndpoint(m, SubscriptionEndpoint) by {
      if HasEndpoint(items, SubscriptionEndpoint) {
        var k :| 0 <= k < |items| && items[k].0 == SubscriptionEndpoint;
        assert m[k].0 == SubscriptionEndpoint;
      } else {
        assert m[|items|].0 == SubscriptionEndpoint;
      }
    }
    var k :| 0 <= k < |m| && m[k].0 == SubscriptionEndpoint;
    assert r[k].0 == SubscriptionEndpoint;
    if HasEndpoint(m, DownloadsEndpoint) {
      var j :| 0 <= j < |m| && m[j].0 == DownloadsEndpoint;
      assert r[j].0 == DownloadsEndpoint;
    } else {
      assert r[|m|].0 == DownloadsEndpoint;
    }
  }

  /** Running the filter twice gives what running it once gives. */
  lemma AccountMenuIdempotent(items: MenuItems)
    ensures AccountMenu(AccountMenu(items)) == AccountMenu(items)
  {
    var r := AccountMenu(items);
    AccountMenuKeepsItems(items);
    var m := SetItem(r, SubscriptionEndpoint, "My Subscription");
    assert m == r;
    assert SetItem(m, DownloadsEndpoint, "Download History") == r;
  }

  // Finding the page that carries a shortcode.

  /** A published page as `get_posts` returns it. */
  datatype PageView = PageView(id: nat, content: string)

  /**
   * `shutterpress_find_shortcode_page`: the id of the first page, in the
   * order `get_posts` lists them, whose content has the shortcode
   * (`has_shortcode` is `hasShortcode`); None for PHP's `false`.
   */
  function FindShortcodePage(pages: seq<PageView>, shortcode: string, hasShortcode: (string, string) -> bool): (r: Option<nat>)
    ensures r.None? <==> forall i :: 0 <= i < |pages| ==> !hasShortcode(pages[i].content, shortcode)
    ensures r.Some? ==> exists i :: (0 <= i < |pages| && pages[i].id == r.value && hasShortcode(pages[i].content, shortcode)
      && forall j :: 0 <= j < i ==> !hasShortcode(pages[j].content, shortcode))
  {
    if pages == [] then None
    else if hasShortcode(pages[0].content, shortcode) then Some(pages[0].id)
    else
      var r := FindShortcodePage(pages[1..], shortcode, hasShortcode);
      assert forall i :: 0 < i < |pages| ==> pages[i] == pages[1..][i - 1];
      if r.Some? then
        var i :| 0 <= i < |pages[1..]| && pages[1..][i].id == r.value && hasShortcode(pages[1..][i].content, shortcode)
          && forall j :: 0 <= j < i ==> !hasShortcode(pages[1..][j].content, shortcode);
        assert pages[i + 1] == pages[1..][i];
        r
      else r
  }

  /** Pages before the first carrying page never change the answer; adding pages after it never does either. */
  lemma FindShortcodePageFirstWins(before: seq<PageView>, page: PageView, after: seq<PageView>, shortcode: string,
                                   hasShortcode: (string, string) -> bool)
    requires forall i :: 0 <= i < |before| ==> !hasShortcode(before[i].content, shortcode)
    requires hasShortcode(page.content, shortcode)
    ensures FindShortcodePage(before + [page] + after, shortcode, hasShortcode) == Some(page.id)
  {
    var pages := before + [page] + after;
    var r := FindShortcodePage(pages, shortcode, hasShortcode);
    assert pages[|before|] == page;
    var i :| 0 <= i < |pages| && pages[i].id == r.value && hasShortcode(pages[i].content, shortcode)
      && forall j :: 0 <= j < i ==> !hasShortcode(pages[j].content, shortcode);
    assert forall j :: 0 <= j < |before| ==> pages[j] == before[j];
  }

  // Hiding plan products from storefront queries.

  /** One `tax_query` clause. */
  datatype TaxClause = TaxClause(taxonomy: string, field: string, terms: seq<string>, operator: string)

  const PlanTag := "shutterpress-plan-product"

  /** The clause the hook appends. */
  const HidePlans := TaxClause("product_tag", "slug", [PlanTag], "NOT IN")

  /** A product as a tax query sees it: its term slugs per taxonomy. */
  type ProductTerms = map<string, set<string>>

  function TermsIn(p: ProductTerms, taxonomy: string): set<string> {
    if taxonomy in p then p[taxonomy] else {}
  }

  /**
   * Whether a product satisfies one slug clause: `IN` needs one of the
   * terms, `NOT IN` none of them; other operators are `other`.
   */
  predicate Satisfies(p: ProductTerms, c: TaxClause, other: TaxClause -> bool) {
    if c.operator == "NOT IN" then forall t :: t in c.terms ==> t !in TermsIn(p, c.taxonomy)
    else if c.operator == "IN" then exists t :: t in c.terms && t in TermsIn(p, c.taxonomy)
    else other(c)
  }

  /** A `tax_query`: its clauses joined by AND, or by OR when its relation is `OR`. */
  predicate Matches(p: ProductTerms, relationOr: bool, clauses: seq<TaxClause>, other: TaxClause -> bool) {
    if relationOr then exists k :: 0 <= k < |clauses| && Satisfies(p, clauses[k], other)
    else forall k :: 0 <= k < |clauses| ==> Satisfies(p, clauses[k], other)
  }

  /** The query vars the hook reads and writes. */
  class ProductQuery {
    var postType: string
    var taxQuery: seq<TaxClause>
    var relationOr: bool

    constructor (postType: string, taxQuery: seq<TaxClause>, relationOr: bool)
      ensures this.postType == postType && this.taxQuery == taxQuery && this.relationOr == relationOr
    {
      this.postType, this.taxQuery, this.relationOr := postType, taxQuery, relationOr;
    }

    /**
     * The `pre_get_posts` hook: in the admin, and for any query not for
     * `product`, nothing changes; otherwise exactly one clause excluding
     * the plan tag is appended after the existing ones (a missing or empty
     * tax query counts as none).
     */
    method HidePlanProducts(isAdmin: bool)
      modifies this
      ensures isAdmin || postType != "product" ==> taxQuery == old(taxQuery)
      ensures !isAdmin && postType == "product" ==> taxQuery == old(taxQuery) + [HidePlans]
      ensures postType == old(postType) && relationOr == old(relationOr)
    {
      if isAdmin {
        return;
      }
      if "product" != postType {
        return;
      }
      var clauses := taxQuery;
      clauses := clauses + [HidePlans];
      taxQuery := clauses;
    }
  }

  /**
   * Under the default AND relation the appended clause hides exactly the
   * products tagged as plan products and leaves every other product's
   * match unchanged.
   */
  lemma HidePlansExcludesTaggedProducts(p: ProductTerms, clauses: seq<TaxClause>, other: TaxClause -> bool)
    ensures Matches(p, false, clauses + [HidePlans], other) <==>
      Matches(p, false, clauses, other) && PlanTag !in TermsIn(p, "product_tag")
  {
    var cs := clauses + [HidePlans];
    assert cs[|clauses|] == HidePlans;
    assert forall k :: 0 <= k < |clauses| ==> cs[k] == clauses[k];
    assert Satisfies(p, HidePlans, other) <==> PlanTag !in TermsIn(p, "product_tag") by {
      assert HidePlans.terms == [PlanTag];
    }
  }

  /**
   * When the query already says `relation => OR`, the appended clause is
   * one alternative among the others: a plan product that satisfies an
   * existing clause is still listed.
   */
  lemma OrRelationLetsPlanProductsThrough(p: ProductTerms, clauses: seq<TaxClause>, other: TaxClause -> bool, k: nat)
    requires k < |clauses| && Satisfies(p, clauses[k], other)
    ensures Matches(p, true, clauses + [HidePlans], other)
  {
    assert (clauses + [HidePlans])[k] == clauses[k];
  }

  // The dashboard pages.

  /** What the render functions print, one block per call that gets past its flag. */
  datatype Block = SubscriptionPage | DownloadsPage | DashboardStyles

  /** The three `static` flags of one request and the output so far. */
  class DashboardRender {
    var subscriptionRendered: bool
    var downloadsRendered: bool
    var stylesAdded: bool
    var output: seq<Block>

    /** Each block has been printed once if its flag is set and not at all otherwise. */
    predicate Valid()
      reads this
    {
      && multiset(output)[SubscriptionPage] == (if subscriptionRendered then 1 else 0)
      && multiset(output)[DownloadsPage] == (if downloadsRendered then 1 else 0)
      && multiset(output)[DashboardStyles] == (if stylesAdded then 1 else 0)
    }

    /** The start of a request: every flag clear, nothing printed. */
    constructor ()
      ensures Valid() && output == []
      ensures !subscriptionRendered && !downloadsRendered && !stylesAdded
    {
      subscriptionRendered, downloadsRendered, stylesAdded, output := false, false, false, [];
    }

    /** `shutterpress_add_dashboard_styles`. */
    method AddDashboardStyles()
      requires Valid()
      modifies this
      ensures Valid() && stylesAdded
      ensures output == old(output) + (if old(stylesAdded) then [] else [DashboardStyles])
      ensures subscriptionRendered == old(subscriptionRendered) && downloadsRendered == old(downloadsRendered)
    {
      if stylesAdded {
        return;
      }
      stylesAdded := true;
      output := output + [DashboardStyles];
    }

    /** `shutterpress_render_subscription_page`: the page, then the styles, on the first call only. */
    method RenderSubscriptionPage()
      requires Valid()
      modifies this
      ensures Valid() && subscriptionRendered
      ensures old(subscriptionRendered) ==> output == old(output) && stylesAdded == old(stylesAdded)
      ensures !old(subscriptionRendered) ==>
        output == old(output) + [SubscriptionPage] + (if old(stylesAdded) then [] else [DashboardStyles])
      ensures downloadsRendered == old(downloadsRendered)
    {
      if subscriptionRendered {
        return;
      }
      subscriptionRendered := true;
      output := output + [SubscriptionPage];
      AddDashboardStyles();
    }

    /** `shutterpress_render_downloads_page`: the page, then the styles, on the first call only. */
    method RenderDownloadsPage()
      requires Valid()
      modifies this
      ensures Valid() && downloadsRendered
      ensures old(downloadsRendered) ==> output == old(output) && stylesAdded == old(stylesAdded)
      ensures !old(downloadsRendered) ==>
        output == old(output) + [DownloadsPage] + (if old(stylesAdded) then [] else [DashboardStyles])
      ensures subscriptionRendered == old(subscriptionRendered)
    {
      if downloadsRendered {
        return;
      }
      downloadsRendered := true;
      output := output + [DownloadsPage];
      AddDashboardStyles();
    }
  }

  /** A request's calls to the three render functions. */
  datatype RenderCall = RenderSubscription | RenderDownloads | AddStyles

  /**
   * Whatever the calls of a request, each block is printed at most once,
   * and the styles are printed whenever either page is.
   */
  method RunRequest(calls: seq<RenderCall>) returns (output: seq<Block>)
    ensures multiset(output)[SubscriptionPage] <= 1 && multiset(output)[DownloadsPage] <= 1
    ensures multiset(output)[DashboardStyles] <= 1
    ensures SubscriptionPage in output <==> RenderSubscription in calls
    ensures DownloadsPage in output <==> RenderDownloads in calls
    ensures DashboardStyles in output <==> calls != []
  {
    var r := new DashboardRender();
    for i := 0 to |calls|
      invariant r.Valid()
      invariant r.subscriptionRendered <==> RenderSubscription in calls[..i]
      invariant r.downloadsRendered <==> RenderDownloads in calls[..i]
      invariant r.stylesAdded <==> i > 0
    {
      assert calls[..i + 1] == calls[..i] + [calls[i]];
      match calls[i]
      case RenderSubscription => r.RenderSubscriptionPage();
      case RenderDownloads => r.RenderDownloadsPage();
      case AddStyles => r.AddDashboardStyles();
    }
    assert calls[..|calls|] == calls;
    output := r.output;
  }
}
