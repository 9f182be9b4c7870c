/**
 * The plan administration handlers: add or edit a plan (creating its
 * hidden WooCommerce product on add), delete one plan, and the bulk
 * delete.
 *
 * `current_user_can('manage_options')` is `isAdmin`, `sanitize_text_field`
 * is `sanitize`, `floatval` is `floatval`, and `WC_Product::save` is
 * `saveProduct`, which returns the new product's id or 0.
 */
module PlansAdmin {
  import opened Common
  import opened Quotas

  /** The five columns the form writes. */
  datatype PlanFields = PlanFields(name: string, quota: int, price: real, cycle: string, isUnlimited: bool)

  /** The product created for a new plan: published, hidden from the catalogue, virtual, downloadable, in stock. */
  datatype ProductDraft = ProductDraft(name: string, price: real, status: string, visibility: string,
                                       isVirtual: bool, downloadable: bool, manageStock: bool, stockStatus: string)

  /** The form as read by the handler; the unlimited box counts as ticked whenever it is posted at all. */
  function ReadFields(post: map<string, string>, sanitize: string -> string, floatval: string -> real): (f: PlanFields)
    ensures f.isUnlimited <==> "is_unlimited" in post
    ensures f.quota == IntVal(Posted(post, "plan_quota"))
  {
    PlanFields(sanitize(Posted(post, "plan_name")), IntVal(Posted(post, "plan_quota")), floatval(Posted(post, "plan_price")),
               sanitize(Posted(post, "billing_cycle")), "is_unlimited" in post)
  }

  /** The billing cycles the form's drop-down offers, first option first. */
  const Cycles := ["monthly", "quarterly", "yearly"]

  /**
   * The edit form as the browser posts it when it is submitted unchanged:
   * each field holds the stored value (`priceText` is how the stored price
   * is printed), the drop-down posts the stored cycle when it is one of its
   * options and its first option otherwise, and the unlimited box is posted
   * only when it is ticked.
   */
  function EditForm(plan: PlanRow, priceText: string): (post: map<string, string>)
    ensures "plan_id" in post && "billing_cycle" in post && post["billing_cycle"] in Cycles
    ensures plan.id >= 1 ==> Filled(post, "plan_id")
    ensures "is_unlimited" in post <==> plan.isUnlimited
  {
    var id := NatToString(plan.id);
    assert plan.id >= 1 && |id| == 1 ==> DigitValue(id[0]) == plan.id;
    var base := map["action" := "shutterpress_add_plan", "plan_id" := NatToString(plan.id),
                    "plan_name" := plan.name, "plan_quota" := IntToString(plan.quota), "plan_price" := priceText,
                    "billing_cycle" := if plan.billingCycle in Cycles then plan.billingCycle else Cycles[0]];
    if plan.isUnlimited then base["is_unlimited" := "1"] else base
  }

  /**
   * Reading back an unchanged edit form gives the plan's own fields and
   * targets the plan's own id: the quota survives its round trip through
   * its decimal text and `intval`, and the unlimited flag through the
   * check box. A cycle outside the drop-down comes back as "monthly".
   */
  lemma {:induction false} EditFormReadsBack(plan: PlanRow, priceText: string, sanitize: string -> string,
                                            floatval: string -> real)
    requires sanitize(plan.name) == plan.name && floatval(priceText) == plan.price
    requires sanitize(Cycles[0]) == Cycles[0] && sanitize(plan.billingCycle) == plan.billingCycle
    ensures var post := EditForm(plan, priceText);
      && IntVal(post["plan_id"]) == plan.id
      && ReadFields(post, sanitize, floatval) ==
         PlanFields(plan.name, plan.quota, plan.price,
                    if plan.billingCycle in Cycles then plan.billingCycle else "monthly", plan.isUnlimited)
  {
    EditFormFields(plan, priceText);
    IntValOfIntToString(plan.quota);
    IntValOfIntToString(plan.id);
  }

  lemma EditFormFields(plan: PlanRow, priceText: string)
    ensures var post := EditForm(plan, priceText);
      && post["plan_id"] == IntToString(plan.id)
      && Posted(post, "plan_name") == plan.name
      && Posted(post, "plan_quota") == IntToString(plan.quota)
      && Posted(post, "plan_price") == priceText
      && Posted(post, "billing_cycle") == if plan.billingCycle in Cycles then plan.billingCycle else "monthly"
  {
  }

  /** Saving an unchanged edit form of a plan whose cycle the drop-down offers leaves the plan table as it was. */
  lemma UnchangedEditIsNoOp(plans: seq<PlanRow>, k: nat, priceText: string, sanitize: string -> string,
                            floatval: string -> real)
    requires UniquePlanIds(plans) && k < |plans|
    requires sanitize(plans[k].name) == plans[k].name && floatval(priceText) == plans[k].price
    requires plans[k].billingCycle in Cycles && sanitize(plans[k].billingCycle) == plans[k].billingCycle
    requires sanitize(Cycles[0]) == Cycles[0]
    ensures var post := EditForm(plans[k], priceText);
      WithFields(plans, IntVal(post["plan_id"]), ReadFields(post, sanitize, floatval)) == plans
  {
    var post := EditForm(plans[k], priceText);
    EditFormReadsBack(plans[k], priceText, sanitize, floatval);
    var r := WithFields(plans, plans[k].id, ReadFields(post, sanitize, floatval));
    forall j | 0 <= j < |plans|
      ensures r[j] == plans[j]
    {
      if plans[j].id == plans[k].id {
        assert j == k;
      }
    }
  }

  function Draft(f: PlanFields): (d: ProductDraft)
    ensures d.name == f.name && d.price == f.price
    ensures d.visibility == "hidden" && d.isVirtual && d.downloadable
  {
    ProductDraft(f.name, f.price, "publish", "hidden", true, true, false, "instock")
  }

  /** `UPDATE plans SET <five columns> WHERE id = id`. */
  function WithFields(plans: seq<PlanRow>, id: int, f: PlanFields): (r: seq<PlanRow>)
    ensures |r| == |plans|
  {
    seq(|plans|, k requires 0 <= k < |plans| =>
      if plans[k].id == id
      then plans[k].(name := f.name, quota := f.quota, price := f.price, billingCycle := f.cycle, isUnlimited := f.isUnlimited)
      else plans[k])
  }

  /** `UPDATE plans SET woocommerce_product_id = pid WHERE id = id`. */
  function WithProduct(plans: seq<PlanRow>, id: int, pid: nat): (r: seq<PlanRow>)
    ensures |r| == |plans|
  {
    seq(|plans|, k requires 0 <= k < |plans| => if plans[k].id == id then plans[k].(productId := pid) else plans[k])
  }

  /** `DELETE FROM plans WHERE id IN (ids)`. */
  function WithoutPlans(plans: seq<PlanRow>, ids: set<int>): (r: seq<PlanRow>)
    ensures |r| <= |plans|
  {
    if plans == [] then []
    else
      var rest := WithoutPlans(plans[..|plans| - 1], ids);
      if plans[|plans| - 1].id in ids then rest else rest + [plans[|plans| - 1]]
  }

  /** Plan ids are the table's primary key. */
  predicate UniquePlanIds(plans: seq<PlanRow>) {
    forall i, j :: 0 <= i < |plans| && 0 <= j < |plans| && plans[i].id == plans[j].id ==> i == j
  }

  /**
   * Editing a plan changes only its five form columns: its id and linked
   * product are kept, and every other plan is unchanged.
   */
  lemma EditChangesOnlyFormColumns(plans: seq<PlanRow>, id: int, f: PlanFields)
    ensures var r := WithFields(plans, id, f);
      forall k :: 0 <= k < |plans| ==>
        if plans[k].id == id
        then r[k].id == plans[k].id && r[k].productId == plans[k].productId
             && PlanFields(r[k].name, r[k].quota, r[k].price, r[k].billingCycle, r[k].isUnlimited) == f
        else r[k] == plans[k]
  {
  }

  /** A delete keeps exactly the plans whose id is not listed, in their order, and keeps ids unique. */
  lemma {:induction false} PlanDeleteExact(plans: seq<PlanRow>, ids: set<int>)
    ensures forall p :: p in WithoutPlans(plans, ids) <==> p in plans && p.id !in ids
    ensures UniquePlanIds(plans) ==> UniquePlanIds(WithoutPlans(plans, ids))
  {
    if plans != [] {
      var init := plans[..|plans| - 1];
      var last := plans[|plans| - 1];
      PlanDeleteExact(init, ids);
      assert plans == init + [last];
      if UniquePlanIds(plans) {
        assert UniquePlanIds(init) by {
          forall i, j | 0 <= i < |init| && 0 <= j < |init| && init[i].id == init[j].id
            ensures i == j
          {
            assert plans[i] == init[i] && plans[j] == init[j];
          }
        }
        var rest := WithoutPlans(init, ids);
        if last.id !in ids {
          forall p | p in rest
            ensures p.id != last.id
          {
            var i :| 0 <= i < |init| && init[i] == p;
            assert plans[i] == p;
          }
          var r := rest + [last];
          forall k | 0 <= k < |rest|
            ensures r[k].id != last.id
          {
            assert r[k] == rest[k] && rest[k] in rest;
          }
        }
      }
    }
  }

  /** The plan table and the products created for it. */
  class PlanStore {
    var plans: seq<PlanRow>
    var nextId: nat
    var products: seq<ProductDraft>

    /** Every id is below the next auto-increment value, which starts at 1, and ids are unique. */
    predicate Valid()
      reads this
    {
      nextId >= 1 && UniquePlanIds(plans) && forall k :: 0 <= k < |plans| ==> plans[k].id < nextId
    }

    constructor ()
      ensures Valid() && plans == [] && products == []
    {
      plans, nextId, products := [], 1, [];
    }

    /**
     * `shutterpress_handle_add_plan`. With a non-empty `plan_id` it edits
     * that plan and creates nothing; otherwise it inserts one plan, saves
     * one product for it and links the product when the save returned an id.
     */
    method AddOrEditPlan(isAdmin: bool, post: map<string, string>, sanitize: string -> string,
                         floatval: string -> real, saveProduct: ProductDraft -> nat)
      returns (died: bool, msg: string)
      requires Valid()
      modifies this
      ensures Valid()
      ensures died <==> !isAdmin
      ensures died ==> plans == old(plans) && products == old(products)
      ensures !died && Filled(post, "plan_id") ==>
        && plans == WithFields(old(plans), IntVal(post["plan_id"]), ReadFields(post, sanitize, floatval))
        && products == old(products) && msg == "updated"
      ensures !died && !Filled(post, "plan_id") ==>
        var f := ReadFields(post, sanitize, floatval);
        var pid := saveProduct(Draft(f));
        && plans == old(plans) + [PlanRow(old(nextId), f.name, f.quota, f.price, f.cycle, f.isUnlimited, pid)]
        && products == old(products) + [Draft(f)] && msg == "success"
    {
      died, msg := false, "";
      if !isAdmin {
        died := true;
        return;
      }
      var f := ReadFields(post, sanitize, floatval);
      if Filled(post, "plan_id") {
        EditPlan(IntVal(post["plan_id"]), f);
        msg := "updated";
        return;
      }
      InsertPlan(f, saveProduct);
      msg := "success";
    }

    /** The edit branch: the five columns of the plan with that id. */
    method EditPlan(id: int, f: PlanFields)
      requires Valid()
      modifies this
      ensures Valid()
      ensures plans == WithFields(old(plans), id, f) && products == old(products)
    {
      var before := plans;
      plans := WithFields(plans, id, f);
      forall k | 0 <= k < |plans|
        ensures plans[k].id == before[k].id
      {
        EditChangesOnlyFormColumns(before, id, f);
      }
    }

    /** The add branch: insert the plan, save its product, link the product when it has an id. */
    method InsertPlan(f: PlanFields, saveProduct: ProductDraft -> nat)
      requires Valid()
      modifies this
      ensures Valid()
      ensures plans == old(plans) + [PlanRow(old(nextId), f.name, f.quota, f.price, f.cycle, f.isUnlimited, saveProduct(Draft(f)))]
      ensures products == old(products) + [Draft(f)]
    {
      var planId := nextId;
      var row := PlanRow(planId, f.name, f.quota, f.price, f.cycle, f.isUnlimited, 0);
      var draft := Draft(f);
      var productId := saveProduct(draft);
      LinkNewPlan(plans, row, productId);
      plans := plans + [row];
      nextId := nextId + 1;
      products := products + [draft];
      if productId != 0 {
        plans := WithProduct(plans, planId, productId);
      }
    }

    /** `shutterpress_handle_delete_plan`: dies unless an admin gives an id, then deletes that plan only. */
    method DeletePlan(isAdmin: bool, get: map<string, string>) returns (died: bool)
      requires Valid()
      modifies this
      ensures Valid()
      ensures died <==> !isAdmin || "id" !in get
      ensures died ==> plans == old(plans)
      ensures !died ==> plans == WithoutPlans(old(plans), {IntVal(get["id"])})
      ensures products == old(products)
    {
      died := !isAdmin || "id" !in get;
      if died {
        return;
      }
      DeleteKeepsValid(plans, {IntVal(get["id"])}, nextId);
      plans := WithoutPlans(plans, {IntVal(get["id"])});
    }

    /**
     * `shutterpress_handle_bulk_action`. `planIds` is None when `plan_ids`
     * is missing or not an array. Plans are deleted only for the action
     * exactly `delete`, and then exactly the listed ones.
     */
    method BulkAction(isAdmin: bool, post: map<string, string>, planIds: Option<seq<string>>) returns (died: bool)
      requires Valid()
      modifies this
      ensures Valid()
      ensures died <==> !isAdmin
      ensures died || "bulk_action" !in post || planIds.None? || post["bulk_action"] != "delete" ==> plans == old(plans)
      ensures !died && "bulk_action" in post && planIds.Some? && post["bulk_action"] == "delete" ==>
        plans == WithoutPlans(old(plans), set s | s in planIds.value :: IntVal(s))
      ensures products == old(products)
    {
      died := !isAdmin;
      if died {
        return;
      }
      if "bulk_action" !in post || planIds.None? {
        return;
      }
      var ids := set s | s in planIds.value :: IntVal(s);
      if post["bulk_action"] == "delete" {
        DeleteKeepsValid(plans, ids, nextId);
        plans := WithoutPlans(plans, ids);
      }
    }
  }

  lemma InsertKeepsIdsUnique(plans: seq<PlanRow>, plans2: seq<PlanRow>, id: nat)
    requires UniquePlanIds(plans) && (forall k :: 0 <= k < |plans| ==> plans[k].id < id)
    requires |plans2| == |plans| + 1 && plans2[..|plans|] == plans && plans2[|plans|].id == id
    ensures UniquePlanIds(plans2) && forall k :: 0 <= k < |plans2| ==> plans2[k].id < id + 1
  {
    forall k | 0 <= k < |plans|
      ensures plans2[k] == plans[k]
    {
      assert plans2[..|plans|][k] == plans2[k];
    }
  }

  /**
   * Linking the product to a freshly inserted plan changes only that plan:
   * the earlier plans all have smaller ids. Either way the ids stay unique
   * and below the next auto-increment value.
   */
  lemma LinkNewPlan(plans: seq<PlanRow>, row: PlanRow, pid: nat)
    requires UniquePlanIds(plans) && forall k :: 0 <= k < |plans| ==> plans[k].id < row.id
    ensures WithProduct(plans + [row], row.id, pid) == plans + [row.(productId := pid)]
    ensures var r := plans + [row.(productId := pid)];
      UniquePlanIds(r) && forall k :: 0 <= k < |r| ==> r[k].id < row.id + 1
    ensures var r := plans + [row];
      UniquePlanIds(r) && forall k :: 0 <= k < |r| ==> r[k].id < row.id + 1
  {
    var r := plans + [row.(productId := pid)];
    InsertKeepsIdsUnique(plans, r, row.id);
    InsertKeepsIdsUnique(plans, plans + [row], row.id);
    var w := WithProduct(plans + [row], row.id, pid);
    forall k | 0 <= k < |w|
      ensures w[k] == r[k]
    {
      if k < |plans| {
        assert (plans + [row])[k] == plans[k];
      }
    }
  }

  lemma DeleteKeepsValid(plans: seq<PlanRow>, ids: set<int>, bound: nat)
    requires UniquePlanIds(plans) && forall k :: 0 <= k < |plans| ==> plans[k].id < bound
    ensures var r := WithoutPlans(plans, ids);
      UniquePlanIds(r) && forall k :: 0 <= k < |r| ==> r[k].id < bound
  {
    PlanDeleteExact(plans, ids);
    var r := WithoutPlans(plans, ids);
    forall k | 0 <= k < |r|
      ensures r[k].id < bound
    {
      assert r[k] in r;
    }
  }
}
