/**
 * The `[shutterpress_plans]` shortcode: the plans that have a WooCommerce
 * product, grouped by billing cycle into tabs, one card per plan.
 *
 * `plans` is the result of `SELECT * FROM plans ORDER BY billing_cycle,
 * price`, in that order; `checkout` is `wc_get_checkout_url()`. Prices
 * are kept as numbers (the markup `wc_price` makes of them is not
 * modelled).
 */
module PlansDisplay {
  import opened Common
  import opened Quotas

  /** A plan without a linked product (`woocommerce_product_id` 0) is never shown. */
  predicate Shown(plan: PlanRow) {
    plan.productId != 0
  }

  /** The shown plans of cycle `cycle`, in query order. */
  function Listed(plans: seq<PlanRow>, cycle: string): seq<PlanRow> {
    if plans == [] then []
    else
      var last := plans[|plans| - 1];
      Listed(plans[..|plans| - 1], cycle) + (if Shown(last) && last.billingCycle == cycle then [last] else [])
  }

  /** A plan is listed under a cycle iff it is shown and has that cycle. */
  lemma {:induction false} ListedMembers(plans: seq<PlanRow>, cycle: string)
    ensures forall p :: p in Listed(plans, cycle) <==> p in plans && Shown(p) && p.billingCycle == cycle
  {
    if plans != [] {
      ListedMembers(plans[..|plans| - 1], cycle);
      assert plans == plans[..|plans| - 1] + [plans[|plans| - 1]];
    }
  }

  predicate CheapestFirst(list: seq<PlanRow>) {
    forall i, j :: 0 <= i < j < |list| ==> list[i].price <= list[j].price
  }

  /**
   * Since the query orders a cycle's plans by price, each tab lists its
   * plans cheapest first.
   */
  lemma {:induction false} ListedByPrice(plans: seq<PlanRow>, cycle: string)
    requires forall i, j :: 0 <= i < j < |plans| && plans[i].billingCycle == plans[j].billingCycle ==> plans[i].price <= plans[j].price
    ensures CheapestFirst(Listed(plans, cycle))
  {
    if plans != [] {
      var init, last := plans[..|plans| - 1], plans[|plans| - 1];
      ListedByPrice(init, cycle);
      ListedMembers(init, cycle);
      var l, m := Listed(plans, cycle), Listed(init, cycle);
      if Shown(last) && last.billingCycle == cycle {
        forall i | 0 <= i < |m|
          ensures m[i].price <= last.price
        {
          assert m[i] in m;
          var k :| 0 <= k < |init| && init[k] == m[i];
          assert plans[k] == m[i];
        }
        assert l == m + [last];
      } else {
        assert l == m;
      }
    }
  }

  /** PHP's ordered array `cycle => plans`: keys in first-insertion order. */
  type Grouped = seq<(string, seq<PlanRow>)>

  predicate HasKey(g: Grouped, key: string) {
    exists k :: 0 <= k < |g| && g[k].0 == key
  }

  predicate DistinctKeys(g: Grouped) {
    forall i, j :: 0 <= i < j < |g| ==> g[i].0 != g[j].0
  }

  /** `$grouped[$key][] = $plan`: append to the key's list, creating the key at the end when it is new. */
  function Push(g: Grouped, key: string, plan: PlanRow): (r: Grouped)
    ensures HasKey(g, key) ==> |r| == |g| && forall k :: 0 <= k < |g| ==>
      r[k].0 == g[k].0 && r[k].1 == g[k].1 + (if g[k].0 == key then [plan] else [])
    ensures !HasKey(g, key) ==> r == g + [(key, [plan])]
  {
    if HasKey(g, key) then seq(|g|, k requires 0 <= k < |g| => (g[k].0, g[k].1 + (if g[k].0 == key then [plan] else [])))
    else g + [(key, [plan])]
  }

  /** `$grouped[key] === list`. */
  predicate Holds(g: Grouped, key: string, list: seq<PlanRow>) {
    exists k :: 0 <= k < |g| && g[k] == (key, list)
  }

  /**
   * `Push` is PHP's `$grouped[$key][] = $plan`: the key's list gains the
   * plan at its end (a missing key starts as an empty list, placed last),
   * every other key keeps its list and its position, and keys stay distinct.
   */
  lemma PushIsArrayAppend(g: Grouped, key: string, plan: PlanRow)
    requires DistinctKeys(g)
    ensures var r := Push(g, key, plan);
      && DistinctKeys(r)
      && (forall list :: Holds(g, key, list) ==> Holds(r, key, list + [plan]))
      && (!HasKey(g, key) ==> Holds(r, key, [plan]) && r[|g|].0 == key)
      && (forall list :: Holds(r, key, list) ==> list != [] && list[|list| - 1] == plan)
      && (forall c, list :: c != key ==> (Holds(r, c, list) <==> Holds(g, c, list)))
      && (forall k :: 0 <= k < |g| ==> r[k].0 == g[k].0)
  {
    var r := Push(g, key, plan);
    forall list | Holds(g, key, list)
      ensures Holds(r, key, list + [plan])
    {
      var k :| 0 <= k < |g| && g[k] == (key, list);
      assert r[k] == (key, list + [plan]);
    }
    if !HasKey(g, key) {
      assert r[|g|] == (key, [plan]);
    }
    forall c, list | c != key
      ensures Holds(r, c, list) <==> Holds(g, c, list)
    {
      if Holds(g, c, list) {
        var k :| 0 <= k < |g| && g[k] == (c, list);
        assert g[k].1 + [] == list;
        assert r[k] == (c, list);
      }
      if Holds(r, c, list) {
        var k :| 0 <= k < |r| && r[k] == (c, list);
        assert k < |g| && r[k].0 == g[k].0;
        assert g[k].1 + [] == g[k].1;
        assert g[k] == (c, list);
      }
    }
  }

  /**
   * `g` is the grouping of `plans`: one key per cycle that has a shown
   * plan, each listing exactly that cycle's shown plans in query order.
   */
  ghost predicate GroupsOf(g: Grouped, plans: seq<PlanRow>) {
    && DistinctKeys(g)
    && (forall k :: 0 <= k < |g| ==> g[k].1 == Listed(plans, g[k].0))
    && (forall c :: HasKey(g, c) <==> Listed(plans, c) != [])
  }

  lemma ListedSnoc(plans: seq<PlanRow>, plan: PlanRow, cycle: string)
    ensures Listed(plans + [plan], cycle) == Listed(plans, cycle) + (if Shown(plan) && plan.billingCycle == cycle then [plan] else [])
  {
    assert (plans + [plan])[..|plans|] == plans;
  }

  lemma PushDistinct(g: Grouped, key: string, plan: PlanRow)
    requires DistinctKeys(g)
    ensures DistinctKeys(Push(g, key, plan))
  {
  }

  lemma PushLists(g: Grouped, plans: seq<PlanRow>, plan: PlanRow)
    requires Shown(plan)
    requires forall k :: 0 <= k < |g| ==> g[k].1 == Listed(plans, g[k].0)
    requires !HasKey(g, plan.billingCycle) ==> Listed(plans, plan.billingCycle) == []
    ensures var g2 := Push(g, plan.billingCycle, plan);
      forall k :: 0 <= k < |g2| ==> g2[k].1 == Listed(plans + [plan], g2[k].0)
  {
    var g2 := Push(g, plan.billingCycle, plan);
    forall k | 0 <= k < |g2|
      ensures g2[k].1 == Listed(plans + [plan], g2[k].0)
    {
      ListedSnoc(plans, plan, g2[k].0);
      if k == |g| {
        assert !HasKey(g, plan.billingCycle);
      }
    }
  }

  lemma PushKeys(g: Grouped, plans: seq<PlanRow>, plan: PlanRow)
    requires Shown(plan)
    requires forall c :: HasKey(g, c) <==> Listed(plans, c) != []
    ensures var g2 := Push(g, plan.billingCycle, plan);
      forall c :: HasKey(g2, c) <==> Listed(plans + [plan], c) != []
  {
    var g2 := Push(g, plan.billingCycle, plan);
    forall c
      ensures HasKey(g2, c) <==> Listed(plans + [plan], c) != []
    {
      ListedSnoc(plans, plan, c);
      if HasKey(g2, c) {
        var k :| 0 <= k < |g2| && g2[k].0 == c;
        if k < |g| {
          assert g[k].0 == c;
        }
      }
      if c == plan.billingCycle && !HasKey(g, c) {
        assert g2[|g|].0 == c;
      } else if HasKey(g, c) {
        var k :| 0 <= k < |g| && g[k].0 == c;
        assert g2[k].0 == c;
      }
    }
  }

  /** Appending a shown plan keeps `GroupsOf`. */
  lemma PushKeepsGrouping(g: Grouped, plans: seq<PlanRow>, plan: PlanRow)
    requires Shown(plan) && GroupsOf(g, plans)
    ensures GroupsOf(Push(g, plan.billingCycle, plan), plans + [plan])
  {
    PushDistinct(g, plan.billingCycle, plan);
    PushLists(g, plans, plan);
    PushKeys(g, plans, plan);
  }

  /** Skipping a plan without a product keeps `GroupsOf`. */
  lemma SkipKeepsGrouping(g: Grouped, plans: seq<PlanRow>, plan: PlanRow)
    requires !Shown(plan) && GroupsOf(g, plans)
    ensures GroupsOf(g, plans + [plan])
  {
    forall c
      ensures Listed(plans + [plan], c) == Listed(plans, c)
    {
      ListedSnoc(plans, plan, c);
    }
  }

  /** The grouping loop: every shown plan appended under its billing cycle. */
  method GroupPlans(plans: seq<PlanRow>) returns (grouped: Grouped)
    ensures GroupsOf(grouped, plans)
  {
    grouped := [];
    for i := 0 to |plans|
      invariant GroupsOf(grouped, plans[..i])
    {
      var plan := plans[i];
      assert plans[..i + 1] == plans[..i] + [plan];
      if !Shown(plan) {
        SkipKeepsGrouping(grouped, plans[..i], plan);
        continue;
      }
      PushKeepsGrouping(grouped, plans[..i], plan);
      grouped := Push(grouped, plan.billingCycle, plan);
    }
    assert plans[..|plans|] == plans;
  }

  /** `$tab_labels[$cycle] ?? ucfirst($cycle)`. */
  function TabLabel(cycle: string): (text: string)
    ensures cycle == "yearly" ==> text == "Annual"
    ensures cycle != "yearly" ==> text == Ucfirst(cycle)
  {
    assert Ucfirst("monthly") == "Monthly" by {
      var u := Ucfirst("monthly");
      assert u[0] == 'M' && u[1..] == "onthly";
    }
    assert Ucfirst("quarterly") == "Quarterly" by {
      var u := Ucfirst("quarterly");
      assert u[0] == 'Q' && u[1..] == "uarterly";
    }
    if cycle == "monthly" then "Monthly"
    else if cycle == "quarterly" then "Quarterly"
    else if cycle == "yearly" then "Annual"
    else Ucfirst(cycle)
  }

  datatype Tab = Tab(cycle: string, caption: string, active: bool, bestValue: bool)

  /** The tab loop: `$first_tab` marks the first button active and is cleared after it. */
  method RenderTabs(grouped: Grouped) returns (tabs: seq<Tab>)
    ensures |tabs| == |grouped|
    ensures forall k :: 0 <= k < |tabs| ==>
      && tabs[k].cycle == grouped[k].0
      && tabs[k].caption == TabLabel(grouped[k].0)
      && (tabs[k].active <==> k == 0)
      && (tabs[k].bestValue <==> grouped[k].0 == "yearly")
  {
    tabs := [];
    var firstTab := true;
    for k := 0 to |grouped|
      invariant |tabs| == k
      invariant firstTab <==> k == 0
      invariant forall j :: 0 <= j < k ==>
        tabs[j] == Tab(grouped[j].0, TabLabel(grouped[j].0), j == 0, grouped[j].0 == "yearly")
    {
      var cycle := grouped[k].0;
      tabs := tabs + [Tab(cycle, TabLabel(cycle), firstTab, cycle == "yearly")];
      firstTab := false;
    }
  }

  /** One plan card. `savings` is the amount in "Save … annually", shown for yearly plans only. */
  datatype Card = Card(name: string, checkoutUrl: string, featured: bool, savings: Option<real>,
                       mostPopular: bool, quotaNumber: string, quotaText: string,
                       features: seq<string>, button: string)

  /**
   * The card of the plan at `index` in a tab of `count` plans of cycle
   * `cycle`: featured only as the first of several, linked to the
   * checkout with the plan's product added to the cart.
   */
  function PlanCard(plan: PlanRow, index: nat, count: nat, cycle: string, checkout: string): (c: Card)
    ensures c.featured <==> index == 0 && count > 1
    ensures c.button == (if c.featured then "Get Started" else "Choose Plan")
    ensures c.checkoutUrl == checkout + "?add-to-cart=" + NatToString(plan.productId)
    ensures c.savings.Some? <==> cycle == "yearly"
    ensures c.savings.Some? ==> c.savings.value == plan.price * 0.2
    ensures c.mostPopular <==> plan.isUnlimited
    ensures (plan.isUnlimited ==> c.quotaNumber == "Unlimited") && (!plan.isUnlimited ==> c.quotaNumber == IntToString(plan.quota))
    ensures ("Commercial usage rights" in c.features <==> plan.isUnlimited) && "Standard license included" in c.features
  {
    var featured := index == 0 && count > 1;
    var unlimited := plan.isUnlimited;
    Card(plan.name, checkout + "?add-to-cart=" + NatToString(plan.productId), featured,
         if cycle == "yearly" then Some(plan.price * 0.2) else None,
         unlimited,
         if unlimited then "Unlimited" else IntToString(plan.quota),
         if unlimited then "Downloads" else "downloads per " + plan.billingCycle,
         [if unlimited then "Access to entire library" else "Curated content selection",
          "Standard license included",
          if unlimited then "Priority support" else "Email support"]
         + (if unlimited then ["Commercial usage rights"] else []),
         if featured then "Get Started" else "Choose Plan")
  }

  datatype Panel = Panel(cycle: string, active: bool, cards: seq<Card>)

  function Cards(list: seq<PlanRow>, cycle: string, checkout: string): (cs: seq<Card>)
    ensures |cs| == |list|
  {
    seq(|list|, i requires 0 <= i < |list| => PlanCard(list[i], i, |list|, cycle, checkout))
  }

  /** The panel loop: `$first_content` marks the first panel active and is cleared after it. */
  method RenderPanels(grouped: Grouped, checkout: string) returns (panels: seq<Panel>)
    ensures |panels| == |grouped|
    ensures forall k :: 0 <= k < |panels| ==>
      && panels[k].cycle == grouped[k].0
      && (panels[k].active <==> k == 0)
      && panels[k].cards == Cards(grouped[k].1, grouped[k].0, checkout)
  {
    panels := [];
    var firstContent := true;
    for k := 0 to |grouped|
      invariant |panels| == k
      invariant firstContent <==> k == 0
      invariant forall j :: 0 <= j < k ==>
        panels[j] == Panel(grouped[j].0, j == 0, Cards(grouped[j].1, grouped[j].0, checkout))
    {
      var (cycle, list) := grouped[k];
      panels := panels + [Panel(cycle, firstContent, Cards(list, cycle, checkout))];
      firstContent := false;
    }
  }

  datatype PlansPage = NoPlans | Plans(tabs: seq<Tab>, panels: seq<Panel>)

  /**
   * The shortcode. The "No plans available" message is given only when the
   * table has no rows at all: when every plan lacks a product the wrapper
   * is rendered with no tab and no panel.
   */
  method RenderPlans(plans: seq<PlanRow>, checkout: string) returns (page: PlansPage)
    ensures page.NoPlans? <==> plans == []
    ensures page.Plans? ==> (|page.tabs| == |page.panels|
      && forall k :: 0 <= k < |page.tabs| ==> page.tabs[k].cycle == page.panels[k].cycle)
    ensures page.Plans? ==> (page.tabs == [] <==> forall p :: p in plans ==> !Shown(p))
    ensures page.Plans? ==> forall k :: 0 <= k < |page.panels| ==>
      var cycle := page.panels[k].cycle;
      && Listed(plans, cycle) != []
      && page.panels[k].cards == Cards(Listed(plans, cycle), cycle, checkout)
    ensures page.Plans? ==> forall k :: 0 <= k < |page.tabs| ==> (page.tabs[k].active <==> k == 0)
    ensures page.Plans? ==> forall k :: 0 <= k < |page.panels| ==> (page.panels[k].active <==> k == 0)
  {
    if plans == [] {
      return NoPlans;
    }
    var grouped := GroupPlans(plans);
    var tabs := RenderTabs(grouped);
    var panels := RenderPanels(grouped, checkout);
    page := Plans(tabs, panels);
    forall k | 0 <= k < |panels|
      ensures Listed(plans, panels[k].cycle) != []
    {
      assert HasKey(grouped, grouped[k].0);
    }
    forall p | p in plans && Shown(p)
      ensures HasKey(grouped, p.billingCycle)
    {
      ListedMembers(plans, p.billingCycle);
      assert p in Listed(plans, p.billingCycle);
    }
    if tabs != [] {
      var c := grouped[0].0;
      assert HasKey(grouped, c);
      ListedMembers(plans, c);
      var p := Listed(plans, c)[0];
      assert p in Listed(plans, c);
    }
  }

  /**
   * Within a panel at most the first card is featured, and it is exactly
   * when the panel holds more than one plan; every card offers its own
   * plan's product.
   */
  lemma FeaturedIsFirstOfSeveral(list: seq<PlanRow>, cycle: string, checkout: string)
    ensures var cs := Cards(list, cycle, checkout);
      && (forall i :: 0 <= i < |cs| && cs[i].featured ==> i == 0 && |cs| > 1)
      && (|cs| > 1 ==> cs[0].featured)
      && (forall i :: 0 <= i < |cs| ==> cs[i].checkoutUrl == checkout + "?add-to-cart=" + NatToString(list[i].productId))
  {
  }

  /**
   * Since a panel's cycle is the billing cycle of every plan in it, a card
   * shows savings exactly when its own plan is yearly.
   */
  lemma SavingsOnlyForYearlyPlans(plans: seq<PlanRow>, cycle: string, checkout: string)
    ensures var list := Listed(plans, cycle);
      var cs := Cards(list, cycle, checkout);
      forall i :: 0 <= i < |cs| ==> (cs[i].savings.Some? <==> list[i].billingCycle == "yearly")
  {
    ListedMembers(plans, cycle);
    var list := Listed(plans, cycle);
    forall i | 0 <= i < |list|
      ensures list[i].billingCycle == cycle
    {
      assert list[i] in list;
    }
  }
}
