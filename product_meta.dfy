/**
 * The product-edit hooks: when the ShutterPress type selector is shown,
 * saving the selected type, and deriving the object-store key of a
 * downloadable product from its first download URL.
 *
 * Post meta is a map from (post id, meta key) to text. `wc_get_product` is
 * the `product` argument, `wp_parse_url(...)['path']` is `parsePath`, and
 * `sanitize_text_field` is `sanitize`.
 */
module ProductMeta {
  import opened Common

  const TypeKey := "_shutterpress_product_type"
  const ObjectKeyMeta := "_wasabi_object_key"
  const Bucket := "designfabricmedia/"

  /**
   * The type selector is always shown on the Add New screen (no `post`
   * in the query string); on the edit screen only for a product whose
   * `_virtual` and `_downloadable` meta are both exactly `yes`.
   */
  function ShowTypeField(editing: bool, virtualMeta: string, downloadableMeta: string): (show: bool)
    ensures !editing ==> show
    ensures editing ==> (show <==> virtualMeta == "yes" && downloadableMeta == "yes")
  {
    var isVirtual := if editing then virtualMeta == "yes" else true;
    var isDownloadable := if editing then downloadableMeta == "yes" else true;
    !(editing && (!isVirtual || !isDownloadable))
  }

  /** `ltrim($path, '/')`: every leading slash removed. */
  function TrimLeadingSlashes(path: string): (r: string)
    ensures |r| <= |path| && path[|path| - |r|..] == r
    ensures r == [] || r[0] != '/'
    ensures forall i :: 0 <= i < |path| - |r| ==> path[i] == '/'
  {
    if path != [] && path[0] == '/' then TrimLeadingSlashes(path[1..]) else path
  }

  /** `preg_replace('#^designfabricmedia/#', '', $key)`: one bucket prefix at the very start. */
  function StripBucket(key: string): (r: string)
    ensures key == r || key == Bucket + r
    ensures key == Bucket + r <==> |key| >= |Bucket| && key[..|Bucket|] == Bucket
  {
    if |key| >= |Bucket| && key[..|Bucket|] == Bucket then key[|Bucket|..] else key
  }

  /** The object key of a URL path. */
  function ObjectKey(path: string): string {
    StripBucket(TrimLeadingSlashes(path))
  }

  /** `n` slashes. */
  function Slashes(n: nat): (r: string)
    ensures |r| == n && (n > 0 ==> r[0] == '/')
  {
    if n == 0 then [] else "/" + Slashes(n - 1)
  }

  /**
   * The key of `/<key>` and of `/designfabricmedia/<key>` is `<key>`, for
   * any key that itself starts with neither a slash nor the bucket name;
   * any number of leading slashes is accepted.
   */
  lemma ObjectKeyOfPath(slashes: nat, key: string)
    requires key == [] || key[0] != '/'
    requires !(|key| >= |Bucket| && key[..|Bucket|] == Bucket)
    ensures ObjectKey(Slashes(slashes) + key) == key
    ensures ObjectKey(Slashes(slashes) + Bucket + key) == key
  {
    TrimSlashesPrefix(slashes, key);
    assert ObjectKey(Slashes(slashes) + key) == StripBucket(key);
    PrefixedKey(key);
    var b := Bucket + key;
    assert Slashes(slashes) + Bucket + key == Slashes(slashes) + b;
    TrimSlashesPrefix(slashes, b);
    assert ObjectKey(Slashes(slashes) + b) == StripBucket(b);
  }

  /** The bucket name followed by a key: no leading slash, and stripping gives the key back. */
  lemma PrefixedKey(key: string)
    ensures (Bucket + key)[0] != '/'
    ensures StripBucket(Bucket + key) == key
  {
    var s := Bucket + key;
    assert s[..|Bucket|] == Bucket;
    assert s[|Bucket|..] == key;
  }

  lemma {:induction false} TrimSlashesPrefix(slashes: nat, rest: string)
    requires rest == [] || rest[0] != '/'
    ensures TrimLeadingSlashes(Slashes(slashes) + rest) == rest
  {
    if slashes > 0 {
      var s, t := Slashes(slashes) + rest, Slashes(slashes - 1) + rest;
      assert s == "/" + t;
      assert s[0] == '/' && s[1..] == t;
      assert TrimLeadingSlashes(s) == TrimLeadingSlashes(t);
      TrimSlashesPrefix(slashes - 1, rest);
    } else {
      assert Slashes(0) + rest == rest;
    }
  }

  /**
   * Only one bucket prefix is removed, and only at the start: a doubled
   * prefix leaves one behind, and the bucket name after another directory
   * is kept.
   */
  lemma BucketStrippedOnceAtStart(key: string)
    ensures ObjectKey("/" + Bucket + Bucket + key) == Bucket + key
    ensures ObjectKey("/media/" + Bucket + key) == "media/" + Bucket + key
  {
    PrefixedKey(Bucket + key);
    assert "/" + Bucket + Bucket + key == [] + ['/'] + (Bucket + (Bucket + key));
    TrimSlashesPrefix(1, Bucket + (Bucket + key));
    var b := "media/" + Bucket + key;
    assert "/media/" + Bucket + key == ['/'] + b;
    assert Slashes(1) == ['/'];
    TrimSlashesPrefix(1, b);
    assert b[0] == 'm' && Bucket[0] == 'd';
    assert b[..|Bucket|][0] == b[0];
  }

  /** What `wc_get_product` gives the save hook: the downloadable flag and the download file URLs, in order. */
  datatype ProductView = ProductView(downloadable: bool, downloadUrls: seq<string>)

  /**
   * The key the save hook writes, or None when it returns early: on an
   * autosave, for no product, a product that is not downloadable or has
   * no downloads, or a first URL without a (non-empty) path.
   */
  function KeyToSave(autosave: bool, product: Option<ProductView>, parsePath: string -> Option<string>): (r: Option<string>)
    ensures r.Some? ==> !autosave && product.Some? && product.value.downloadable && product.value.downloadUrls != []
    ensures r.Some? ==> var path := parsePath(product.value.downloadUrls[0]);
      path.Some? && Truthy(path.value) && r.value == ObjectKey(path.value)
    ensures r.None? && !autosave && product.Some? && product.value.downloadable && product.value.downloadUrls != [] ==>
      var path := parsePath(product.value.downloadUrls[0]);
      path.None? || !Truthy(path.value)
  {
    if autosave || product.None? || !product.value.downloadable || product.value.downloadUrls == [] then None
    else
      var path := parsePath(product.value.downloadUrls[0]);
      if path.None? || !Truthy(path.value) then None else Some(ObjectKey(path.value))
  }

  class MetaStore {
    var meta: map<(nat, string), string>

    constructor (meta: map<(nat, string), string>)
      ensures this.meta == meta
    {
      this.meta := meta;
    }

    /** `woocommerce_process_product_meta`: the type is written only when the field is posted. */
    method SaveProductType(postId: nat, post: map<string, string>, sanitize: string -> string)
      modifies this
      ensures TypeKey in post ==> meta == old(meta)[(postId, TypeKey) := sanitize(post[TypeKey])]
      ensures TypeKey !in post ==> meta == old(meta)
    {
      if TypeKey in post {
        meta := meta[(postId, TypeKey) := sanitize(post[TypeKey])];
      }
    }

    /** `save_post_product`: writes only the object key, and only when the hook gets that far. */
    method SaveObjectKey(postId: nat, autosave: bool, product: Option<ProductView>, parsePath: string -> Option<string>)
      modifies this
      ensures KeyToSave(autosave, product, parsePath).Some? ==>
        meta == old(meta)[(postId, ObjectKeyMeta) := KeyToSave(autosave, product, parsePath).value]
      ensures KeyToSave(autosave, product, parsePath).None? ==> meta == old(meta)
    {
      if autosave {
        return;
      }
      if product.None? || !product.value.downloadable {
        return;
      }
      var downloads := product.value.downloadUrls;
      if downloads == [] {
        return;
      }
      var url := downloads[0];
      var path := parsePath(url);
      if path.None? || !Truthy(path.value) {
        return;
      }
      var objectKey := TrimLeadingSlashes(path.value);
      objectKey := StripBucket(objectKey);
      meta := meta[(postId, ObjectKeyMeta) := objectKey];
    }
  }
}
