/**
 * The secure download gateway: the request handler that runs on every page
 * load, acts only when the `shutterpress_download` parameter is present, and
 * then checks the link's nonce, the login, the product, its access type and
 * (for subscription products) the user's quota before it charges the quota,
 * writes a log row, resolves the object-store key and relays the file.
 *
 * WordPress, WooCommerce and the object store are inputs (`Env`); the three
 * tables the handler writes (quota rows, log rows and the `_wasabi_object_key`
 * post meta) are the fields of `Store`. The model is sequential: the quota
 * update is the source's read-then-write, and nothing here says what two
 * concurrent requests do.
 */
module DownloadGateway {
  import opened Common
  import opened Quotas

  /** The parts of a WooCommerce product the gateway reads. */
  datatype Product = Product(downloadable: bool, isVirtual: bool, downloadFiles: seq<string>)

  /** What the handler asks of WordPress, WooCommerce and the object store. */
  datatype Env = Env(
    // wp_verify_nonce(nonce, 'shutterpress_download_' . id) for a non-empty nonce
    nonceOk: (string, nat) -> bool,
    loggedIn: bool,
    userId: nat,
    // wc_get_product: the products that exist
    products: map<nat, Product>,
    // the `_shutterpress_product_type` post meta
    productType: map<nat, string>,
    // shutterpress_get_attachment_id_from_url: 0 when the URL is no attachment
    attachmentId: string -> nat,
    // function_exists('as3cf_get_attachment_s3_info')
    s3Plugin: bool,
    // the 'key' entry of as3cf_get_attachment_s3_info, None when it has none
    s3Key: nat -> Option<string>,
    // shutterpress_generate_temp_download_url: None when signing fails
    sign: string -> Option<string>,
    // get_headers on the signed URL answers with a 200 status line
    probeOk: string -> bool,
    // fopen on the signed URL succeeds
    streamOk: string -> bool,
    // current_time('mysql')
    now: int)

  datatype Outcome =
    | NotHandled        // no trigger parameter: the page load goes on
    | PassToStore       // premium products are left to WooCommerce's own flow
    | RedirectToLogin
    | Denied(message: string)
    | Streamed(key: string, signedUrl: string)

  const TriggerParam := "shutterpress_download"
  const NonceParam := "_wpnonce"

  const InvalidLink := "Invalid or expired download link."
  const InvalidProduct := "Invalid product."
  const NotDownloadable := "This product is not downloadable through ShutterPress."
  const NoSubscription := "You do not have an active subscription."
  const LimitMessage := "You have reached your download limit."
  const NotConfigured := "Download not configured for this product. Please contact support."
  const SignFailed := "Unable to generate secure download URL."
  const ProbeFailed := "Failed to access remote file."
  const StreamFailed := "Unable to retrieve file from Wasabi."

  const Free := "free"
  const Subscription := "subscription"
  const Premium := "premium"

  /** `get_post_meta($id, $key, true)`: the empty string when the post has none. */
  function Meta(m: map<nat, string>, id: nat): string {
    if id in m then m[id] else ""
  }

  /** `absint($_GET['shutterpress_download'])`. */
  function ProductIdOf(get: map<string, string>): nat
    requires TriggerParam in get
  {
    Abs(IntVal(get[TriggerParam]))
  }

  /** `$_GET['_wpnonce'] ?? ''`. */
  function NonceOf(get: map<string, string>): string {
    if NonceParam in get then get[NonceParam] else ""
  }

  /** `wp_verify_nonce` refuses an empty nonce outright and asks its oracle otherwise. */
  predicate NonceValid(env: Env, nonce: string, id: nat) {
    nonce != "" && env.nonceOk(nonce, id)
  }

  predicate ProductValid(env: Env, id: nat) {
    id in env.products && env.products[id].downloadable && env.products[id].isVirtual
  }

  function TypeOf(env: Env, id: nat): string {
    Meta(env.productType, id)
  }

  /**
   * The authorisation stage (source lines 6-59): Some(outcome) for each early
   * exit, None when the request goes on to be charged and logged.
   */
  function Gate(get: map<string, string>, env: Env, quotas: seq<QuotaRow>): Option<Outcome> {
    if TriggerParam !in get then Some(NotHandled)
    else
      var pid := ProductIdOf(get);
      if !NonceValid(env, NonceOf(get), pid) then Some(Denied(InvalidLink))
      else if !env.loggedIn then Some(RedirectToLogin)
      else if !ProductValid(env, pid) then Some(Denied(InvalidProduct))
      else
        var t := TypeOf(env, pid);
        if t == Premium then Some(PassToStore)
        else if t != Free && t != Subscription then Some(Denied(NotDownloadable))
        else if t == Subscription then
          match NewestActive(quotas, env.userId)
          case None => Some(Denied(NoSubscription))
          case Some(i) => if LimitReached(quotas[i]) then Some(Denied(LimitMessage)) else None
        else None
  }

  /** The quota table after a request that passed `Gate` (source lines 61-69). */
  function Charged(env: Env, pid: nat, quotas: seq<QuotaRow>): seq<QuotaRow> {
    if TypeOf(env, pid) != Subscription then quotas
    else
      match NewestActive(quotas, env.userId)
      case None => quotas
      case Some(i) =>
        if quotas[i].isUnlimited then quotas
        else SetUsed(quotas, quotas[i].id, quotas[i].quotaUsed + 1)
  }

  /**
   * The three-step key lookup (source lines 86-119): the key it found (possibly
   * empty) and the `_wasabi_object_key` meta afterwards.
   */
  function ResolveKey(env: Env, pid: nat, product: Product, keys: map<nat, string>): (string, map<nat, string>) {
    var stored := Meta(keys, pid);
    if Truthy(stored) || |product.downloadFiles| == 0 then (stored, keys)
    else
      var att := env.attachmentId(product.downloadFiles[0]);
      if att == 0 then (stored, keys)
      else
        var attKey := Meta(keys, att);
        if Truthy(attKey) || !env.s3Plugin then (attKey, keys)
        else
          match env.s3Key(att)
          case None => (attKey, keys)
          case Some(k) => (k, keys[att := k][pid := k])
  }

  /** Signing, probing and streaming (source lines 123-173). */
  function Finish(env: Env, key: string): Outcome {
    if !Truthy(key) then Denied(NotConfigured)
    else
      match env.sign(key)
      case None => Denied(SignFailed)
      case Some(url) =>
        if !env.probeOk(url) then Denied(ProbeFailed)
        else if !env.streamOk(url) then Denied(StreamFailed)
        else Streamed(key, url)
  }

  class Store {
    var quotas: seq<QuotaRow>
    var logs: seq<LogRow>
    /** The `_wasabi_object_key` post meta of products and attachments, by post id. */
    var objectKeys: map<nat, string>

    ghost predicate Valid()
      reads this
    {
      UniqueIds(quotas)
    }

    constructor (quotas: seq<QuotaRow>, logs: seq<LogRow>, objectKeys: map<nat, string>)
      requires UniqueIds(quotas)
      ensures Valid()
      ensures this.quotas == quotas && this.logs == logs && this.objectKeys == objectKeys
    {
      this.quotas := quotas;
      this.logs := logs;
      this.objectKeys := objectKeys;
    }

    /** `shutterpress_handle_secure_download`, one request. */
    method HandleSecureDownload(get: map<string, string>, env: Env) returns (o: Outcome)
      requires Valid()
      modifies this
      ensures Valid()
      ensures Gate(get, env, old(quotas)).Some? ==>
        o == Gate(get, env, old(quotas)).value
        && quotas == old(quotas) && logs == old(logs) && objectKeys == old(objectKeys)
      ensures Gate(get, env, old(quotas)).None? ==>
        var pid := ProductIdOf(get);
        var resolved := ResolveKey(env, pid, env.products[pid], old(objectKeys));
        && logs == old(logs) + [LogRow(env.userId, pid, env.now, TypeOf(env, pid))]
        && quotas == Charged(env, pid, old(quotas))
        && objectKeys == resolved.1
        && o == Finish(env, resolved.0)
    {
      var verdict := Authorise(get, env);
      if verdict.Some? {
        return verdict.value;
      }
      PassMeansAuthorised(get, env, quotas);
      var pid := Abs(IntVal(get[TriggerParam]));
      var t := Meta(env.productType, pid);
      ChargeQuota(env, pid);
      logs := logs + [LogRow(env.userId, pid, env.now, t)];
      var key := ResolveObjectKey(env, pid, env.products[pid]);
      o := Relay(env, key);
    }

    /** The checks of source lines 6-59, none of which writes anything. */
    method Authorise(get: map<string, string>, env: Env) returns (verdict: Option<Outcome>)
      ensures verdict == Gate(get, env, quotas)
    {
      if TriggerParam !in get {
        return Some(NotHandled);
      }
      var pid := Abs(IntVal(get[TriggerParam]));
      var nonce := if NonceParam in get then get[NonceParam] else "";
      if !(nonce != "" && env.nonceOk(nonce, pid)) {
        return Some(Denied(InvalidLink));
      }
      if !env.loggedIn {
        return Some(RedirectToLogin);
      }
      if pid !in env.products || !env.products[pid].downloadable || !env.products[pid].isVirtual {
        return Some(Denied(InvalidProduct));
      }
      var t := Meta(env.productType, pid);
      if t == Premium {
        return Some(PassToStore);
      }
      if t != Free && t != Subscription {
        return Some(Denied(NotDownloadable));
      }
      if t == Subscription {
        var found := NewestActive(quotas, env.userId);
        if found.None? {
          return Some(Denied(NoSubscription));
        }
        var quota := quotas[found.value];
        if !quota.isUnlimited && quota.quotaUsed >= quota.quotaTotal {
          return Some(Denied(LimitMessage));
        }
      }
      return None;
    }

    /** `quota_used + 1` on the consulted row of a limited subscription (source lines 61-69). */
    method ChargeQuota(env: Env, pid: nat)
      requires Valid()
      modifies this`quotas
      ensures Valid()
      ensures quotas == Charged(env, pid, old(quotas))
    {
      if Meta(env.productType, pid) == Subscription {
        var found := NewestActive(quotas, env.userId);
        if found.Some? && !quotas[found.value].isUnlimited {
          var quota := quotas[found.value];
          SetUsedOneRow(quotas, found.value, quota.quotaUsed + 1);
          quotas := SetUsed(quotas, quota.id, quota.quotaUsed + 1);
        }
      }
    }

    /** The key lookup with its write-back (source lines 86-119). */
    method ResolveObjectKey(env: Env, pid: nat, product: Product) returns (key: string)
      modifies this`objectKeys
      ensures (key, objectKeys) == ResolveKey(env, pid, product, old(objectKeys))
    {
      key := Meta(objectKeys, pid);
      if !Truthy(key) && |product.downloadFiles| > 0 {
        var att := env.attachmentId(product.downloadFiles[0]);
        if att != 0 {
          key := Meta(objectKeys, att);
          if !Truthy(key) && env.s3Plugin {
            var info := env.s3Key(att);
            if info.Some? {
              key := info.value;
              objectKeys := objectKeys[att := key];
              objectKeys := objectKeys[pid := key];
            }
          }
        }
      }
    }
  }

  /** Signing, probing and streaming the file (source lines 123-173). */
  method Relay(env: Env, key: string) returns (o: Outcome)
    ensures o == Finish(env, key)
  {
    if !Truthy(key) {
      return Denied(NotConfigured);
    }
    var signed := env.sign(key);
    if signed.None? {
      return Denied(SignFailed);
    }
    if !env.probeOk(signed.value) {
      return Denied(ProbeFailed);
    }
    if !env.streamOk(signed.value) {
      return Denied(StreamFailed);
    }
    return Streamed(key, signed.value);
  }

  // ---------------------------------------------------------------------------
  // Properties of the authorisation stage

  /**
   * A request reaches the log write only when every check held: the trigger
   * is present, the nonce is valid for this product, the user is logged in,
   * the product is a downloadable virtual product of type free or
   * subscription, and a subscription product finds an active row with quota
   * left (or an unlimited one).
   */
  lemma PassMeansAuthorised(get: map<string, string>, env: Env, quotas: seq<QuotaRow>)
    requires Gate(get, env, quotas).None?
    ensures TriggerParam in get
    ensures NonceValid(env, NonceOf(get), ProductIdOf(get))
    ensures env.loggedIn && ProductValid(env, ProductIdOf(get))
    ensures TypeOf(env, ProductIdOf(get)) == Free || TypeOf(env, ProductIdOf(get)) == Subscription
    ensures TypeOf(env, ProductIdOf(get)) == Subscription ==>
      NewestActive(quotas, env.userId).Some? && !LimitReached(quotas[NewestActive(quotas, env.userId).value])
  {
  }

  /** Conversely, a request that meets all of those conditions is let through. */
  lemma AuthorisedPasses(get: map<string, string>, env: Env, quotas: seq<QuotaRow>)
    requires TriggerParam in get
    requires NonceValid(env, NonceOf(get), ProductIdOf(get))
    requires env.loggedIn && ProductValid(env, ProductIdOf(get))
    requires TypeOf(env, ProductIdOf(get)) == Free || TypeOf(env, ProductIdOf(get)) == Subscription
    requires TypeOf(env, ProductIdOf(get)) == Subscription ==>
      NewestActive(quotas, env.userId).Some? && !LimitReached(quotas[NewestActive(quotas, env.userId).value])
    ensures Gate(get, env, quotas).None?
  {
  }

  /**
   * The nonce is checked before the login: an anonymous request with a bad
   * nonce is refused, not redirected.
   */
  lemma BadNonceRefusedBeforeLogin(get: map<string, string>, env: Env, quotas: seq<QuotaRow>)
    requires TriggerParam in get && !NonceValid(env, NonceOf(get), ProductIdOf(get))
    ensures Gate(get, env, quotas) == Some(Denied(InvalidLink))
  {
  }

  /**
   * For a subscription product the row consulted is the user's newest active
   * row, whatever its renewal date: with none the request is refused, and an
   * exhausted limited row is refused.
   */
  lemma SubscriptionEntitlement(get: map<string, string>, env: Env, quotas: seq<QuotaRow>)
    requires TriggerParam in get && NonceValid(env, NonceOf(get), ProductIdOf(get))
    requires env.loggedIn && ProductValid(env, ProductIdOf(get))
    requires TypeOf(env, ProductIdOf(get)) == Subscription
    ensures (forall j :: 0 <= j < |quotas| ==> !ActiveFor(env.userId, quotas[j])) ==>
      Gate(get, env, quotas) == Some(Denied(NoSubscription))
    ensures forall i :: (0 <= i < |quotas| && ActiveFor(env.userId, quotas[i]) && LimitReached(quotas[i])
      && (forall j :: 0 <= j < |quotas| && ActiveFor(env.userId, quotas[j]) ==> quotas[j].createdAt < quotas[i].createdAt || j == i)) ==>
      Gate(get, env, quotas) == Some(Denied(LimitMessage))
  {
    forall i | 0 <= i < |quotas| && ActiveFor(env.userId, quotas[i]) && LimitReached(quotas[i])
      && (forall j :: 0 <= j < |quotas| && ActiveFor(env.userId, quotas[j]) ==> quotas[j].createdAt < quotas[i].createdAt || j == i)
      ensures Gate(get, env, quotas) == Some(Denied(LimitMessage))
    {
      var k := NewestActive(quotas, env.userId).value;
      assert quotas[i].createdAt <= quotas[k].createdAt;
      assert k == i;
    }
  }

  /**
   * Charging: a free download leaves the quota table as it was; a
   * subscription download raises `quota_used` of exactly the consulted row by
   * one, unless that row is unlimited, in which case nothing is written.
   */
  lemma ChargeTouchesOneRow(get: map<string, string>, env: Env, quotas: seq<QuotaRow>)
    requires UniqueIds(quotas)
    requires Gate(get, env, quotas).None?
    ensures var pid := ProductIdOf(get);
      TypeOf(env, pid) == Free ==> Charged(env, pid, quotas) == quotas
    ensures var pid := ProductIdOf(get);
      TypeOf(env, pid) == Subscription ==>
        var i := NewestActive(quotas, env.userId).value;
        Charged(env, pid, quotas) == (if quotas[i].isUnlimited then quotas else quotas[i := quotas[i].(quotaUsed := quotas[i].quotaUsed + 1)])
  {
    var pid := ProductIdOf(get);
    if TypeOf(env, pid) == Subscription {
      assert NewestActive(quotas, env.userId).Some?;
      SubscriptionCharge(env, pid, quotas);
    }
  }

  lemma SubscriptionCharge(env: Env, pid: nat, quotas: seq<QuotaRow>)
    requires UniqueIds(quotas)
    requires TypeOf(env, pid) == Subscription && NewestActive(quotas, env.userId).Some?
    ensures var i := NewestActive(quotas, env.userId).value;
      Charged(env, pid, quotas) == (if quotas[i].isUnlimited then quotas else quotas[i := quotas[i].(quotaUsed := quotas[i].quotaUsed + 1)])
  {
    var i := NewestActive(quotas, env.userId).value;
    if !quotas[i].isUnlimited {
      SetUsedOneRow(quotas, i, quotas[i].quotaUsed + 1);
    }
  }

  /** After a charged subscription download the consulted row still satisfies `quota_used <= quota_total`. */
  lemma ChargeKeepsUsedWithinTotal(get: map<string, string>, env: Env, quotas: seq<QuotaRow>)
    requires UniqueIds(quotas)
    requires Gate(get, env, quotas).None? && TypeOf(env, ProductIdOf(get)) == Subscription
    ensures var i := NewestActive(quotas, env.userId).value;
      var after := Charged(env, ProductIdOf(get), quotas);
      |after| == |quotas| && (!quotas[i].isUnlimited ==> after[i].quotaUsed == quotas[i].quotaUsed + 1 <= after[i].quotaTotal)
  {
    var i := NewestActive(quotas, env.userId).value;
    if !quotas[i].isUnlimited {
      SetUsedOneRow(quotas, i, quotas[i].quotaUsed + 1);
    }
  }

  // ---------------------------------------------------------------------------
  // Properties of the key resolution and of the final stage

  /**
   * The lookup order: a stored product key is used as it is and nothing is
   * written; otherwise the first download's attachment key; only when that
   * is missing too is the S3-info key used, and then it is written back to
   * both the attachment and the product. No other meta entry changes.
   */
  lemma KeyResolutionOrder(env: Env, pid: nat, product: Product, keys: map<nat, string>)
    ensures Truthy(Meta(keys, pid)) ==> ResolveKey(env, pid, product, keys) == (Meta(keys, pid), keys)
    ensures var r := ResolveKey(env, pid, product, keys);
      r.1 == keys || (
        && !Truthy(Meta(keys, pid)) && |product.downloadFiles| > 0
        && var att := env.attachmentId(product.downloadFiles[0]);
        && att != 0 && !Truthy(Meta(keys, att)) && env.s3Plugin && env.s3Key(att) == Some(r.0)
        && r.1 == keys[att := r.0][pid := r.0])
    ensures var r := ResolveKey(env, pid, product, keys);
      forall id :: id in keys && id != pid && (|product.downloadFiles| == 0 || id != env.attachmentId(product.downloadFiles[0])) ==>
        id in r.1 && r.1[id] == keys[id]
  {
  }

  /**
   * Once resolved, a key written back by the S3 fallback is found by the
   * first step of the next request for the same product.
   */
  lemma WriteBackIsFoundNextTime(env: Env, pid: nat, product: Product, keys: map<nat, string>)
    requires var r := ResolveKey(env, pid, product, keys); r.1 != keys && Truthy(r.0)
    ensures var r := ResolveKey(env, pid, product, keys);
      ResolveKey(env, pid, product, r.1) == (r.0, r.1)
  {
  }

  /** Every failure after the log write is a refusal; only a reachable signed URL streams. */
  lemma FinishStreamsOnlyWhenReachable(env: Env, key: string)
    ensures Finish(env, key).Streamed? <==>
      Truthy(key) && env.sign(key).Some? && env.probeOk(env.sign(key).value) && env.streamOk(env.sign(key).value)
    ensures !Finish(env, key).Streamed? ==> Finish(env, key).Denied?
  {
  }
}
