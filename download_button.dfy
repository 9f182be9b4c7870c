/**
 * The product-page download button: which control replaces WooCommerce's
 * add-to-cart block for a free or subscription product, the link it points
 * at, and the quota test it makes before offering a download.
 *
 * The page sees the same WordPress state as the download gateway, so it is
 * given the gateway's `Env`; `plansPage` is the result of the page search
 * for the plans shortcode.
 */
module DownloadButton {
  import opened Common
  import opened Quotas
  import opened DownloadGateway

  datatype Button =
    | NoOverride                                   // WooCommerce's own block stays
    | EmptyBox                                     // an unknown type: the block is removed, nothing shown
    | DownloadNow(link: map<string, string>)       // the query string of the link
    | NoFileAvailable
    | LoginToDownload
    | SubscribeToDownload(plansPage: nat)
    | NoPlansAvailable

  /**
   * `shutterpress_user_has_quota`: the newest active row, unlimited or with
   * `quota_total > quota_used`.
   */
  function UserHasQuota(rows: seq<QuotaRow>, user: nat): (has: bool)
    ensures has <==> NewestActive(rows, user).Some? && !LimitReached(rows[NewestActive(rows, user).value])
  {
    match NewestActive(rows, user)
    case None => false
    case Some(i) => if rows[i].isUnlimited then true else rows[i].quotaTotal > rows[i].quotaUsed
  }

  /**
   * The button's quota test and the gateway's refusal test look at the same
   * row and agree: the button offers a download exactly when the gateway
   * would find an active row whose limit is not reached.
   */
  lemma HasQuotaAgreesWithGateway(rows: seq<QuotaRow>, user: nat)
    ensures UserHasQuota(rows, user) <==>
      NewestActive(rows, user).Some? && !LimitReached(rows[NewestActive(rows, user).value])
  {
  }

  /** The query string the button's link carries, as written: only the product id. */
  function ButtonLinkAsWritten(pid: nat): (q: map<string, string>)
    ensures TriggerParam in q && NonceParam !in q
  {
    map[TriggerParam := IntToString(pid)]
  }

  /**
   * The link as the gateway expects it: the product id and a nonce created
   * for the action `shutterpress_download_<id>`.
   */
  function ButtonLink(pid: nat, nonce: string): (q: map<string, string>)
    ensures TriggerParam in q && NonceParam in q && q[NonceParam] == nonce
  {
    map[TriggerParam := IntToString(pid), NonceParam := nonce]
  }

  /** The gateway reads back the product id the link was built for. */
  lemma LinkCarriesProductId(pid: nat, nonce: string)
    ensures ProductIdOf(ButtonLinkAsWritten(pid)) == pid
    ensures ProductIdOf(ButtonLink(pid, nonce)) == pid
  {
    IntValOfIntToString(pid);
    assert ButtonLink(pid, nonce)[TriggerParam] == IntToString(pid);
  }

  /**
   * The link as written is refused by the gateway for every product, every
   * user and every state of the quota table: it carries no `_wpnonce`, and
   * an empty nonce never verifies.
   */
  lemma AsWrittenLinkAlwaysRefused(pid: nat, env: Env, quotas: seq<QuotaRow>)
    ensures Gate(ButtonLinkAsWritten(pid), env, quotas) == Some(Denied(InvalidLink))
  {
    var q := ButtonLinkAsWritten(pid);
    assert NonceOf(q) == "";
  }

  /**
   * The control the product page shows (the corrected link is used; `nonce`
   * is what `wp_create_nonce('shutterpress_download_' . id)` returns).
   */
  function ProductButton(env: Env, pid: nat, quotas: seq<QuotaRow>, plansPage: Option<nat>, nonce: string): (b: Button)
    requires pid in env.products
    ensures b.DownloadNow? ==>
      && b.link == ButtonLink(pid, nonce) && env.loggedIn && |env.products[pid].downloadFiles| > 0
      && (TypeOf(env, pid) == Free || (TypeOf(env, pid) == Subscription && UserHasQuota(quotas, env.userId)))
    ensures b == EmptyBox <==>
      && env.products[pid].isVirtual && env.products[pid].downloadable
      && Truthy(TypeOf(env, pid)) && TypeOf(env, pid) !in {Free, Subscription, Premium}
    ensures b.SubscribeToDownload? ==> plansPage == Some(b.plansPage) && TypeOf(env, pid) == Subscription
    ensures b == NoFileAvailable ==> TypeOf(env, pid) == Free && |env.products[pid].downloadFiles| == 0
  {
    var product := env.products[pid];
    var t := TypeOf(env, pid);
    if !product.isVirtual || !product.downloadable then NoOverride
    else if !Truthy(t) || t == Premium then NoOverride
    else
      var hasLink := |product.downloadFiles| > 0;
      if t == Free then
        if !env.loggedIn then LoginToDownload
        else if hasLink then DownloadNow(ButtonLink(pid, nonce))
        else NoFileAvailable
      else if t == Subscription then
        if !env.loggedIn then LoginToDownload
        else if UserHasQuota(quotas, env.userId) && hasLink then DownloadNow(ButtonLink(pid, nonce))
        else if plansPage.Some? then SubscribeToDownload(plansPage.value)
        else NoPlansAvailable
      else EmptyBox
  }

  /**
   * The page and the gateway agree: when the page offers "Download Now"
   * and the nonce it embedded verifies, following the link passes every
   * check of the gateway, so the download is charged, logged and relayed.
   */
  lemma OfferedDownloadPassesGateway(env: Env, pid: nat, quotas: seq<QuotaRow>, plansPage: Option<nat>, nonce: string)
    requires pid in env.products
    requires ProductButton(env, pid, quotas, plansPage, nonce).DownloadNow?
    requires nonce != "" && env.nonceOk(nonce, pid)
    ensures Gate(ProductButton(env, pid, quotas, plansPage, nonce).link, env, quotas).None?
  {
    var link := ButtonLink(pid, nonce);
    assert ProductButton(env, pid, quotas, plansPage, nonce).link == link;
    LinkCarriesProductId(pid, nonce);
    HasQuotaAgreesWithGateway(quotas, env.userId);
    assert NonceOf(link) == nonce;
    AuthorisedPasses(link, env, quotas);
  }

  /**
   * Anonymous visitors of a free or subscription product are sent to log
   * in, and a subscriber without quota is never offered a download.
   */
  lemma NoDownloadWithoutEntitlement(env: Env, pid: nat, quotas: seq<QuotaRow>, plansPage: Option<nat>, nonce: string)
    requires pid in env.products
    requires TypeOf(env, pid) == Free || TypeOf(env, pid) == Subscription
    requires env.products[pid].isVirtual && env.products[pid].downloadable
    ensures !env.loggedIn ==> ProductButton(env, pid, quotas, plansPage, nonce) == LoginToDownload
    ensures env.loggedIn && TypeOf(env, pid) == Subscription && !UserHasQuota(quotas, env.userId) ==>
      ProductButton(env, pid, quotas, plansPage, nonce) == (if plansPage.Some? then SubscribeToDownload(plansPage.value) else NoPlansAvailable)
  {
  }
  /**
   * WooCommerce's block is kept exactly for a product that is not both
   * virtual and downloadable, or whose type is empty or premium. A logged-in
   * user of a free product is offered the download when the product has a
   * file and told that there is none otherwise.
   */
  lemma ButtonChoice(env: Env, pid: nat, quotas: seq<QuotaRow>, plansPage: Option<nat>, nonce: string)
    requires pid in env.products
    ensures var product := env.products[pid];
      ProductButton(env, pid, quotas, plansPage, nonce) == NoOverride <==>
        !product.isVirtual || !product.downloadable || !Truthy(TypeOf(env, pid)) || TypeOf(env, pid) == Premium
    ensures var product := env.products[pid];
      product.isVirtual && product.downloadable && TypeOf(env, pid) == Free && env.loggedIn ==>
        ProductButton(env, pid, quotas, plansPage, nonce) ==
          (if |product.downloadFiles| > 0 then DownloadNow(ButtonLink(pid, nonce)) else NoFileAvailable)
  {
  }
}
