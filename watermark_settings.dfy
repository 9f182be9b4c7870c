/**
 * The watermark settings page: which submitted action runs, the nonce
 * check in front of all of them, the option updates of "save", the cache
 * clearance of "clear", both of them for "save and clear", and the
 * statistics shown under the form.
 *
 * `update_option` writes into `SettingsStore.options`; `sanitize_text_field`
 * and `floatval` are WordPress/PHP primitives given as parameters.
 */
module WatermarkSettings {
  import opened Common
  import opened Watermark

  /** The five stored options; None when the option was never saved. */
  datatype StoredOptions = StoredOptions(
    text: Option<string>,
    opacity: Option<int>,
    size: Option<real>,
    angle: Option<int>,
    spacing: Option<real>)

  const NeverSaved := StoredOptions(None, None, None, None, None)

  function OrElse<T>(o: Option<T>, d: T): T {
    match o
    case None => d
    case Some(v) => v
  }

  /** `get_option(name, default)` for all five options, as both the page and the handler read them. */
  function Effective(o: StoredOptions): (s: Settings)
    ensures o == NeverSaved ==> s == DefaultSettings
  {
    Settings(
      OrElse(o.text, DefaultSettings.text),
      OrElse(o.opacity, DefaultSettings.opacity),
      OrElse(o.size, DefaultSettings.size),
      OrElse(o.angle, DefaultSettings.angle),
      OrElse(o.spacing, DefaultSettings.spacing))
  }

  /** The posted field names. */
  const TextField := "watermark_text"
  const OpacityField := "watermark_opacity"
  const SizeField := "watermark_size"
  const AngleField := "watermark_angle"
  const SpacingField := "watermark_spacing"

  /** A form value that is converted before it is stored. */
  function PostedOr<T>(post: map<string, string>, field: string, convert: string -> T, current: Option<T>): Option<T> {
    if field in post then Some(convert(post[field])) else current
  }

  /** The options after the "save settings" updates. */
  function Saved(o: StoredOptions, post: map<string, string>,
                 sanitize: string -> string, floatval: string -> real): StoredOptions
  {
    StoredOptions(
      PostedOr(post, TextField, sanitize, o.text),
      PostedOr(post, OpacityField, IntVal, o.opacity),
      PostedOr(post, SizeField, floatval, o.size),
      PostedOr(post, AngleField, IntVal, o.angle),
      PostedOr(post, SpacingField, floatval, o.spacing))
  }

  /**
   * Saving changes exactly the options whose fields were posted: the text
   * sanitised, opacity and angle read with `intval`, size and spacing with
   * `floatval`; every other option, and so its effective value, is kept.
   */
  lemma SaveTouchesOnlyPostedFields(o: StoredOptions, post: map<string, string>,
                                    sanitize: string -> string, floatval: string -> real)
    ensures var e := Effective(Saved(o, post, sanitize, floatval));
      && e.text == (if TextField in post then sanitize(post[TextField]) else Effective(o).text)
      && e.opacity == (if OpacityField in post then IntVal(post[OpacityField]) else Effective(o).opacity)
      && e.size == (if SizeField in post then floatval(post[SizeField]) else Effective(o).size)
      && e.angle == (if AngleField in post then IntVal(post[AngleField]) else Effective(o).angle)
      && e.spacing == (if SpacingField in post then floatval(post[SpacingField]) else Effective(o).spacing)
    ensures post.Keys !! {TextField, OpacityField, SizeField, AngleField, SpacingField} ==>
      Saved(o, post, sanitize, floatval) == o
  {
  }

  /** Saving the same form twice stores the same options as saving it once. */
  lemma SaveIsIdempotent(o: StoredOptions, post: map<string, string>,
                         sanitize: string -> string, floatval: string -> real)
    ensures Saved(Saved(o, post, sanitize, floatval), post, sanitize, floatval) == Saved(o, post, sanitize, floatval)
  {
  }

  /**
   * `update_option` fires `update_option_<name>` only for an option that
   * already exists and whose stored value differs from the new one; a
   * first save goes through `add_option`, which does not fire it.
   */
  predicate Changed<T(==)>(current: Option<T>, post: map<string, string>, field: string, convert: string -> T) {
    field in post && current.Some? && current.value != convert(post[field])
  }

  /** Whether saving the form fires any of the five `update_option_*` hooks. */
  predicate SaveFiresHook(o: StoredOptions, post: map<string, string>,
                          sanitize: string -> string, floatval: string -> real) {
    || Changed(o.text, post, TextField, sanitize)
    || Changed(o.opacity, post, OpacityField, IntVal)
    || Changed(o.size, post, SizeField, floatval)
    || Changed(o.angle, post, AngleField, IntVal)
    || Changed(o.spacing, post, SpacingField, floatval)
  }

  /** Re-saving what was just saved changes no option, so it fires no hook. */
  lemma ResaveFiresNoHook(o: StoredOptions, post: map<string, string>,
                          sanitize: string -> string, floatval: string -> real)
    ensures !SaveFiresHook(Saved(o, post, sanitize, floatval), post, sanitize, floatval)
  {
  }

  /**
   * A first save of every option (nothing stored yet) fires no hook, and a
   * posted value that differs from a stored one always does.
   */
  lemma FirstSaveFiresNoHook(post: map<string, string>, sanitize: string -> string, floatval: string -> real)
    ensures !SaveFiresHook(NeverSaved, post, sanitize, floatval)
    ensures forall t :: TextField in post && sanitize(post[TextField]) != t ==>
      SaveFiresHook(NeverSaved.(text := Some(t)), post, sanitize, floatval)
  {
  }

  datatype Action =
    | SaveSettings
    | ClearCache
    | SaveAndClear
    | TestWatermark
    | DebugAllProducts
    | Unknown(name: string)

  /** The value of the hidden `action` field as an action. */
  function ActionNamed(name: string): Action {
    if name == "save_settings" then SaveSettings
    else if name == "clear_cache" then ClearCache
    else if name == "save_and_clear" then SaveAndClear
    else if name == "test_watermark" then TestWatermark
    else if name == "debug_all_products" then DebugAllProducts
    else Unknown(name)
  }

  /** The page acts when any of the four submit fields is posted. */
  predicate Submitted(post: map<string, string>) {
    "action" in post || "save_and_clear" in post || "test_watermark" in post || "debug_all_products" in post
  }

  /** The action that runs: the three buttons take precedence, in this order, over the `action` field. */
  function ChosenAction(post: map<string, string>): (a: Action)
    ensures !Submitted(post) ==> a == SaveSettings
  {
    if "save_and_clear" in post then SaveAndClear
    else if "test_watermark" in post then TestWatermark
    else if "debug_all_products" in post then DebugAllProducts
    else if "action" in post then ActionNamed(post["action"])
    else SaveSettings
  }

  /**
   * Precedence: `save_and_clear` wins over everything, `test_watermark`
   * over the remaining two sources, `debug_all_products` over the `action`
   * field, and the field is used only when no button was posted.
   */
  lemma ActionPrecedence(post: map<string, string>)
    ensures "save_and_clear" in post ==> ChosenAction(post) == SaveAndClear
    ensures "save_and_clear" !in post && "test_watermark" in post ==> ChosenAction(post) == TestWatermark
    ensures "save_and_clear" !in post && "test_watermark" !in post && "debug_all_products" in post ==>
      ChosenAction(post) == DebugAllProducts
    ensures ChosenAction(post).Unknown? ==>
      && "action" in post && ChosenAction(post).name == post["action"]
      && post["action"] !in {"save_settings", "clear_cache", "save_and_clear", "test_watermark", "debug_all_products"}
  {
  }

  const NonceField := "shutterpress_nonce"

  /** `isset($_POST['shutterpress_nonce']) && wp_verify_nonce(...)`; an empty nonce never verifies. */
  predicate NonceAccepted(post: map<string, string>, nonceOk: string -> bool) {
    NonceField in post && post[NonceField] != "" && nonceOk(post[NonceField])
  }

  datatype Notice =
    | NoNotice
    | SecurityCheckFailed                    // wp_die: nothing after it runs
    | Success(message: string)
    | Error(message: string)
    | ShowTestResults

  function ClearedMessage(n: nat): string {
    "Watermark cache cleared! " + IntToString(n) + " files removed."
  }

  function SavedAndClearedMessage(n: nat): string {
    "Settings saved and cache cleared! " + IntToString(n) + " files removed."
  }

  const SavedMessage := "Watermark settings saved successfully!"
  /** The handler class has no `debug_all_products` method, so the page reports it as unavailable. */
  const DebugUnavailable := "Debug method not available. Please update your watermark-handler.php file."

  /**
   * The `update_option_*` action of one update: `clear_watermark_cache`
   * when it fires. Clearing twice is clearing once, so the directory is
   * `base` or `Cleared(base)`, whichever it was, unless the hook now fires.
   */
  method UpdateHook(fires: bool, dir: CacheDir, ghost base: seq<FileEntry>)
    requires dir.entries == base || (dir.present && dir.entries == Cleared(base))
    modifies dir`entries
    ensures fires && dir.present ==> dir.entries == Cleared(base)
    ensures !(fires && dir.present) ==> dir.entries == old(dir.entries)
  {
    if fires {
      var _ := dir.ClearCache();
      ClearTwice(base);
    }
  }

  class SettingsStore {
    var options: StoredOptions

    constructor (options: StoredOptions)
      ensures this.options == options
    {
      this.options := options;
    }

    /**
     * The five guarded `update_option` calls. When `hooked` (the watermark
     * handler registered its `update_option_*` hooks, which it does when
     * GD is available), each update that changes a stored option runs
     * `clear_watermark_cache` on `dir`.
     */
    method SaveOptions(post: map<string, string>, sanitize: string -> string, floatval: string -> real,
                       dir: CacheDir, hooked: bool)
      modifies this, dir`entries
      ensures options == Saved(old(options), post, sanitize, floatval)
      ensures dir.entries ==
        if hooked && dir.present && SaveFiresHook(old(options), post, sanitize, floatval)
        then Cleared(old(dir.entries)) else old(dir.entries)
    {
      ghost var before := dir.entries;
      ghost var fired := false;
      // Each update compares against its option as stored before the save:
      // the five options are independent, so no earlier update touched it.
      var stored := options;
      // `PostedOr` keeps the stored value when the field is absent, and
      // `Changed` is false then, so an absent field is an update that is
      // never made.
      fired := Update(options.(text := PostedOr(post, TextField, sanitize, stored.text)),
                      hooked && Changed(stored.text, post, TextField, sanitize), dir, before, fired);
      fired := Update(options.(opacity := PostedOr(post, OpacityField, IntVal, stored.opacity)),
                      hooked && Changed(stored.opacity, post, OpacityField, IntVal), dir, before, fired);
      fired := Update(options.(size := PostedOr(post, SizeField, floatval, stored.size)),
                      hooked && Changed(stored.size, post, SizeField, floatval), dir, before, fired);
      fired := Update(options.(angle := PostedOr(post, AngleField, IntVal, stored.angle)),
                      hooked && Changed(stored.angle, post, AngleField, IntVal), dir, before, fired);
      fired := Update(options.(spacing := PostedOr(post, SpacingField, floatval, stored.spacing)),
                      hooked && Changed(stored.spacing, post, SpacingField, floatval), dir, before, fired);
      assert fired == (hooked && SaveFiresHook(old(options), post, sanitize, floatval));
    }

    /**
     * One `update_option`: store the new options and, when the update
     * fires the hook, clear the cache. `fired` records whether an earlier
     * update of the same save already cleared it.
     */
    method Update(newOptions: StoredOptions, fires: bool, dir: CacheDir, ghost base: seq<FileEntry>, ghost fired: bool)
      returns (ghost firedNow: bool)
      requires dir.entries == if dir.present && fired then Cleared(base) else base
      modifies this, dir`entries
      ensures options == newOptions && firedNow == (fired || fires)
      ensures dir.entries == if dir.present && firedNow then Cleared(base) else base
    {
      UpdateHook(fires, dir, base);
      options := newOptions;
      firedNow := fired || fires;
    }

    /**
     * `shutterpress_render_watermark_settings_page` up to the form: handle a
     * submission, then read the cache statistics shown on the page. With
     * `hooked`, a save that changes a stored option also clears the cache
     * through the handler's `update_option_*` hooks, so "save and clear"
     * then finds nothing left to count.
     */
    method RenderSettingsPage(post: map<string, string>, nonceOk: string -> bool, dir: CacheDir, hooked: bool,
                              sanitize: string -> string, floatval: string -> real)
      returns (notice: Notice, count: nat, bytes: nat)
      modifies this, dir`entries
      ensures !Submitted(post) ==> notice == NoNotice && options == old(options) && dir.entries == old(dir.entries)
      ensures Submitted(post) && !NonceAccepted(post, nonceOk) ==>
        notice == SecurityCheckFailed && options == old(options) && dir.entries == old(dir.entries)
      ensures Submitted(post) && NonceAccepted(post, nonceOk) ==>
        var a := ChosenAction(post);
        var hookClears := hooked && SaveFiresHook(old(options), post, sanitize, floatval);
        && options == (if a == SaveSettings || a == SaveAndClear then Saved(old(options), post, sanitize, floatval) else old(options))
        && dir.entries == (if dir.present && (a == ClearCache || a == SaveAndClear || (a == SaveSettings && hookClears))
                           then Cleared(old(dir.entries)) else old(dir.entries))
        && notice == match a
             case SaveSettings => Success(SavedMessage)
             case ClearCache => Success(ClearedMessage(if dir.present then CachedCount(old(dir.entries)) else 0))
             case SaveAndClear =>
               Success(SavedAndClearedMessage(if dir.present && !hookClears then CachedCount(old(dir.entries)) else 0))
             case TestWatermark => ShowTestResults
             case DebugAllProducts => Error(DebugUnavailable)
             case Unknown(_) => NoNotice
      ensures notice != SecurityCheckFailed ==>
        (!dir.present ==> count == 0 && bytes == 0)
        && (dir.present ==> count == CachedCount(dir.entries) && bytes == CachedBytes(dir.entries))
      ensures notice.Success? && (ChosenAction(post) == ClearCache || ChosenAction(post) == SaveAndClear) ==>
        count == 0 && bytes == 0
    {
      notice := NoNotice;
      count, bytes := 0, 0;
      if Submitted(post) {
        if !NonceAccepted(post, nonceOk) {
          return SecurityCheckFailed, 0, 0;
        }
        var action := ChosenAction(post);
        match action {
          case SaveSettings =>
            SaveOptions(post, sanitize, floatval, dir, hooked);
            notice := Success(SavedMessage);
          case ClearCache =>
            var cleared := dir.ClearCache();
            notice := Success(ClearedMessage(cleared));
          case SaveAndClear =>
            SaveOptions(post, sanitize, floatval, dir, hooked);
            ClearedHasNoCachedImages(old(dir.entries));
            ClearTwice(old(dir.entries));
            var cleared := dir.ClearCache();
            notice := Success(SavedAndClearedMessage(cleared));
          case TestWatermark =>
            notice := ShowTestResults;
          case DebugAllProducts =>
            notice := Error(DebugUnavailable);
          case Unknown(_) =>
        }
        if action == ClearCache || action == SaveAndClear {
          ClearedHasNoCachedImages(old(dir.entries));
        }
      }
      count, bytes := dir.Stats();
    }
  }
}
