# ShutterPress in Dafny

ShutterPress is a WordPress/WooCommerce plugin that sells stock images.
Customers download images through a gated download endpoint. A download is
allowed when:

- the product is free, or
- the product is a subscription product and the user holds an active quota
  row with downloads left.

The plugin also:

- watermarks product images and keeps the watermarked copies in a disk cache;
- gives administrators list tables and forms for quota rows, plans and the
  download log;
- renders storefront shortcodes for the current subscription, the download
  history and the plan catalogue.

This project models that core and proves properties of the model. The
modules are:

| module | file | what it models |
|---|---|---|
| `Common` | common.dfy | The PHP helpers the code relies on: truthiness (`!empty`), `intval`, `absint`, integer-to-string, `ucfirst`, `strtoupper`/`strtolower` on ASCII, `?:`, `ceil` of a division. |
| `Quotas` | quotas.dfy | The quota, log and plan rows. The shared query "the user's newest `active` row by `created_at`". |
| `Sql` | sql.dfy | SQL fragments as literal text and typed holes (`%d`, `%s`). Parameters, the `WHERE … AND …` join, and the placeholder count `prepare` relies on. |
| `DownloadGateway` | download_gateway.dfy | `shutterpress_handle_secure_download` as a method on a class holding the quota table, the log table and the object-key post meta. |
| `DownloadButton` | download_button.dfy | The product-page button and `shutterpress_user_has_quota`. |
| `Watermark` | watermark.dfy | The applicability gate, the cache file name, the cache-hit rule, the generation guards, the font clamp, the font search, and the cache directory's clear, cleanup and statistics loops. |
| `WatermarkSettings` | watermark_settings.dfy | The settings page's action dispatch, the option updates and the cache clearing. |
| `UserQuotasAdmin` | user_quotas_admin.dfy | The quota admin page: single and bulk delete, activate, deactivate and reset; the edit form; the CSV export rows and filters; the statistics. |
| `QuotasListTable` | quotas_list_table.dfy | The quota list table's filter-to-query builder, ordering, pagination and column cells. |
| `DownloadLogsTable` | download_logs_table.dfy | The download-log list table's filter builder, queries and cells. |
| `PlansAdmin` | plans_admin.dfy | Adding, editing, deleting and bulk-deleting plans. |
| `ProductMeta` | product_meta.dfy | The product-type field, its save hook and the derivation of `_wasabi_object_key`. |
| `SubscriptionStatus` | subscription_status.dfy | The `[shutterpress_user_subscription]` shortcode. |
| `DownloadHistory` | download_history.dfy | The `[shutterpress_download_history]` shortcode: pagination, the page-number navigation and the grouping by day. |
| `PlansDisplay` | plans_display.dfy | The `[shutterpress_plans]` shortcode: grouping by billing cycle, tabs and plan cards. |
| `PublicInit` | public_init.dfy | The account-menu filter, the shortcode page search, the `pre_get_posts` tax-query hook and the render-once flags. |

How the source is represented:

- Database tables are sequences of records in table order. A query's
  `ORDER BY created_at DESC LIMIT 1` is the function `Quotas.NewestWhere`.
  Among rows created in the same second, the model takes the earliest
  row in table order; the database leaves that choice open.
- WordPress and WooCommerce primitives are inputs to the model:
  - nonce checks, the login state and the current user;
  - product records, post meta and options;
  - `sanitize_text_field`, `floatval` and `wp_parse_url`;
  - date formatting;
  - the object-store signer, the probe and the stream.
- `wp_verify_nonce` is an oracle. The one fixed fact about it is that the
  empty nonce never verifies.
- Code that changes state step by step is modelled with classes and
  methods. Each method is proved against a specification function of the
  old state, and lemmas state what those functions promise. Examples:
  - `DownloadGateway.Store`;
  - `UserQuotasAdmin.QuotaTable`, `PlansAdmin.PlanStore`;
  - `Watermark.CacheDir`, `WatermarkSettings.SettingsStore`;
  - `ProductMeta.MetaStore`, `DownloadLogsTable.LogsTable`;
  - `PublicInit.ProductQuery`, `PublicInit.DashboardRender`;
  - the loops of the shortcodes.
- Expression code (selections, labels, cells, the pagination window) is
  written as functions.

## Model

| member | source | states |
|---|---|---|
| Quotas.NewestWhere | includes/download-handler.php:42-53 | The selected row satisfies the test and has the largest `created_at` among those that do. No earlier qualifying row ties with it. None exactly when no row qualifies. |
| Quotas.NewestActive | public/download-button-handler.php:79-85 | The user's newest `active` row, with no test of the renewal date. None iff the user has no active row. |
| Quotas.SetUsedOneRow | includes/download-handler.php:62-68 | With unique ids, an update of `quota_used` by id changes exactly one row and keeps the ids unique. |
| Quotas.NewestWhereIgnoresOtherColumns | includes/download-handler.php:42-53 | The selected row depends only on which rows qualify and on their creation times. |
| Quotas.NewestWhereNarrowed | public/subscription-status.php:15-21 | Narrowing the test keeps the selected row whenever that row passes the narrower test. |
| Quotas.UserLabel | admin/class-shutterpress-user-quotas-table.php:241 | The display name when it is non-empty; else the login when that is non-empty; else `User #<id>`. Never blank. |
| Quotas.PlanLabel | admin/class-shutterpress-user-quotas-table.php:259 | The plan name when it is non-empty; else `Plan #<id>`. Never blank. |
| DownloadGateway.Store.HandleSecureDownload | includes/download-handler.php:4-174 | A refused request changes no table. A request that passes every check changes tables as follows: the quota table is charged as `Charged` says, exactly one log row (user, product, type) is appended, and the key meta is resolved as `ResolveKey` says. Failures after the log write leave the charge and the log row in place. |
| DownloadGateway.Store.Authorise | includes/download-handler.php:6-59 | The early-exit checks compute the verdict of the gate function without writing anything. |
| DownloadGateway.Store.ChargeQuota | includes/download-handler.php:61-69 | The quota table becomes exactly `Charged` of the old one. |
| DownloadGateway.Store.ResolveObjectKey | includes/download-handler.php:83-119 | The key and the new meta are those of the three-step lookup. |
| DownloadGateway.Relay | includes/download-handler.php:123-173 | The outcome of signing, probing and streaming is `Finish`. |
| DownloadGateway.PassMeansAuthorised | includes/download-handler.php:6-59 | A request passes only if all of these hold: the trigger is present; the nonce is valid for this product; the user is logged in; the product is virtual and downloadable; its type is free or subscription; and a subscription finds an active row whose limit is not reached. |
| DownloadGateway.AuthorisedPasses | includes/download-handler.php:6-59 | Conversely, every request that meets those conditions passes. |
| DownloadGateway.BadNonceRefusedBeforeLogin | includes/download-handler.php:13-20 | An anonymous request with a bad nonce is refused as an invalid link, not sent to log in. |
| DownloadGateway.SubscriptionEntitlement | includes/download-handler.php:42-59 | With no active row the subscription request is refused. An exhausted limited newest active row is refused, whatever its renewal date. |
| DownloadGateway.ChargeTouchesOneRow | includes/download-handler.php:61-69 | A free download leaves the quota table unchanged. A subscription download raises `quota_used` of exactly the consulted row by one. An unlimited row is never written. |
| DownloadGateway.ChargeKeepsUsedWithinTotal | includes/download-handler.php:55-69 | After a charge the consulted limited row still has `quota_used <= quota_total`. |
| DownloadGateway.KeyResolutionOrder | includes/download-handler.php:83-119 | The lookup tries, in order: the product's key; then the first download's attachment key; then the S3 key, written back to both the attachment and the product. An earlier hit writes nothing, and no other meta entry changes. |
| DownloadGateway.WriteBackIsFoundNextTime | includes/download-handler.php:111-115 | A written-back key is found by the first step of the next request. |
| DownloadGateway.FinishStreamsOnlyWhenReachable | includes/download-handler.php:123-173 | Only a non-empty key with a signed, reachable URL streams; every other ending is a refusal. |
| DownloadButton.HasQuotaAgreesWithGateway | public/download-button-handler.php:73-93 | The user has quota iff an active row exists and the newest one is not at its limit. This is the negation of the gateway's refusal test on the same row. |
| DownloadButton.ButtonChoice | public/download-button-handler.php:9-43 | The add-to-cart block is kept iff the product is not virtual and downloadable, or its type is empty or premium. For a logged-in user, a free product shows Download Now iff it has a file, else "No file available." |
| DownloadButton.NoDownloadWithoutEntitlement | public/download-button-handler.php:45-66 | Anonymous users get the login link. A subscriber without quota gets the Subscribe link when a plans page exists, otherwise the no-plans message. |
| DownloadButton.LinkCarriesProductId | public/download-button-handler.php:23-29 | The gateway reads back the product id the link was built with. |
| DownloadButton.ButtonLinkAsWritten | public/download-button-handler.php:26-28 | The link as written carries the product id and no `_wpnonce`. |
| DownloadButton.AsWrittenLinkAlwaysRefused | public/download-button-handler.php:26-28 | The gateway refuses the as-written link for every product, user and quota table. |
| DownloadButton.ButtonLink | includes/download-handler.php:11-15 | The corrected link carries the product id and the nonce. |
| DownloadButton.OfferedDownloadPassesGateway | public/download-button-handler.php:31-66 | When the page offers Download Now and the embedded nonce verifies, the gateway lets the request through. |
| DownloadButton.ProductButton | public/download-button-handler.php:9-66 | "Download Now" only for a logged-in user, a product with a file, and a free product or a subscription product with quota left; its link is `ButtonLink` of the product. The empty box iff the type is set but none of the three. "Subscribe to Download" only for subscription products, linking to the plans page. "No file available" only for free products without a file. |
| DownloadButton.UserHasQuota | public/download-button-handler.php:73-93 | True iff the user has a newest active row and that row has not reached its limit. |
| Watermark.WatermarkedExactlyTheShutterPressTypes | public/watermark-handler.php:210-223 | A product is watermarked iff its type is free, subscription or premium. No product means no watermark. |
| Watermark.SourceFileRule | public/watermark-handler.php:261-280 | The sized derivative replaces the source only for a listed size that is not `full`. `full` and explicit dimensions use the original file. |
| Watermark.DimsSuffixInjective | public/watermark-handler.php:270-272 | Different explicit dimensions give different `WxH` suffixes. |
| Watermark.FilenameAndExtensionRebuildBasename | public/watermark-handler.php:285 | `pathinfo` filename and extension put back together give the base name. |
| Watermark.CacheFilenameDeterminesHash | public/watermark-handler.php:284-287 | For one source and size, two equal-length settings hashes give the same cache file only when they are equal. |
| Watermark.CacheFilenameKeepsExtension | public/watermark-handler.php:285-287 | The cached copy has the source's extension. |
| Watermark.CachedCopyRule | public/watermark-handler.php:289-299 | A cached copy at least as new as its source is served without generation. Otherwise the copy is regenerated, and the URL is returned only when that succeeds. The file name carries the md5 of the settings text. |
| Watermark.WatermarkedImageUrl | public/watermark-handler.php:252-300 | A URL only with GD available, an attachment and an existing source file; the URL is the cache URL followed by the cache file name of that source, size suffix and settings hash. |
| Watermark.SettingsChangeMovesCopy | public/watermark-handler.php:252-300 | Settings with different hashes give different URLs, so a settings change never serves a copy made with the old settings. |
| Watermark.ClearTwice | public/watermark-handler.php:558-574 | Clearing a cleared directory changes nothing. |
| Watermark.GenerationGuards | public/watermark-handler.php:302-335 | Generation fails without GD, below 100 pixels in either direction, and for a mime type other than jpeg, png, gif or webp. A 100×100 JPEG is accepted. |
| Watermark.TileFontSize | public/watermark-handler.php:413-420 | The tile size is `min(w,h)·size/100` clamped to [8, 32]. |
| Watermark.CentralFontSize | public/watermark-handler.php:429 | The central mark is 1.5 times the tile size, within [12, 48]. |
| Watermark.FirstExisting | public/watermark-handler.php:515-528 | The first existing path in list order; None iff none exists. |
| Watermark.FontPath | public/watermark-handler.php:506-531 | The plugin font when it exists, otherwise the first existing system font, otherwise none. |
| Watermark.ClearedKeepsTheRest | public/watermark-handler.php:558-574 | Clearing keeps exactly the entries that are not cached images and removes the cached-image count. |
| Watermark.ClearedHasNoCachedImages | public/watermark-handler.php:558-596 | After a clear, the statistics count zero files and zero bytes. |
| Watermark.CleanedUpKeepsFresh | public/watermark-handler.php:533-556 | Cleanup removes exactly the cached images older than thirty days. |
| Watermark.ClearAfterCleanup | public/watermark-handler.php:533-574 | Clearing after a cleanup is the same as clearing. |
| Watermark.CacheDir.ClearCache | public/watermark-handler.php:558-574 | For a missing directory: nothing is removed and 0 is returned. Otherwise the directory becomes `Cleared` and the count removed is returned. |
| Watermark.CacheDir.CleanupOld | public/watermark-handler.php:533-556 | The directory becomes `CleanedUp` at the given time. |
| Watermark.CacheDir.Stats | public/watermark-handler.php:577-596 | The count and the total size of the cached images; zero for a missing directory. |
| WatermarkSettings.Effective | admin/watermark-settings.php:142-146 | Options never saved read as ShutterPress, 90, 2.5, 45 and 2.0. |
| WatermarkSettings.ChosenAction | admin/watermark-settings.php:22-31 | Without a submission the action is `save_settings`. |
| WatermarkSettings.ActionPrecedence | admin/watermark-settings.php:22-31 | `save_and_clear` comes first, then `test_watermark`, then `debug_all_products`, then the posted `action`. |
| WatermarkSettings.SaveTouchesOnlyPostedFields | admin/watermark-settings.php:34-53 | Saving changes exactly the posted options: text sanitised, opacity and angle by `intval`, size and spacing by `floatval`. Everything else is kept. |
| WatermarkSettings.SaveIsIdempotent | admin/watermark-settings.php:34-53 | Saving the same form twice equals saving it once. |
| WatermarkSettings.ResaveFiresNoHook | public/watermark-handler.php:92-96 | Saving again what was just saved fires none of the `update_option_*` hooks. |
| WatermarkSettings.FirstSaveFiresNoHook | public/watermark-handler.php:92-96 | With nothing stored, a save fires no hook (the options are added, not updated); a posted text that differs from a stored one fires it. |
| WatermarkSettings.SettingsStore.SaveOptions | admin/watermark-settings.php:35-52 | The options become `Saved` of the old ones. When the hooks are registered, the cache directory is cleared iff it exists and some update changes a stored option (`SaveFiresHook`); otherwise it is unchanged. |
| WatermarkSettings.SettingsStore.RenderSettingsPage | admin/watermark-settings.php:15-162 | With no submission nothing changes. With a bad nonce nothing changes and the page reports the failed security check. Otherwise: the chosen action saves, clears, or saves and clears; a save that fires the `update_option_*` hooks also clears the cache; "save and clear" reports the files removed by its explicit clear, which is 0 when a hook already cleared them; test and debug change nothing. The statistics are those of the directory afterwards. |
| UserQuotasAdmin.DeleteRemovesExactlyListed | admin/user-quotas.php:34-43 | A delete keeps exactly the rows whose id is not listed, in order, and keeps ids unique. |
| UserQuotasAdmin.DeleteTwice | admin/user-quotas.php:82-91 | Deleting the same ids twice is the same as once. |
| UserQuotasAdmin.StatusChangeTouchesOnlyStatus | admin/user-quotas.php:45-61 | Activate and deactivate set the status of exactly the listed rows; no other column or row changes. |
| UserQuotasAdmin.ResetTouchesOnlyUsage | admin/user-quotas.php:63-70 | A reset sets `quota_used` to 0 on the listed rows only, keeping totals and statuses. |
| UserQuotasAdmin.LastStatusWins | admin/user-quotas.php:45-61 | Two status writes to the same ids leave the second status. |
| UserQuotasAdmin.ActivationEntitles | admin/user-quotas.php:45-52 | After activating a row, the gateway finds an active row for its owner. |
| UserQuotasAdmin.ResetLiftsTheLimit | admin/user-quotas.php:63-70 | A reset keeps the gateway's row selected and lifts its limit when the total is positive. |
| UserQuotasAdmin.BothDropdownsApply | admin/user-quotas.php:27-121 | Both bulk dropdowns act in turn. Activate then deactivate leaves the rows expired, and a delete posted in both deletes once. |
| UserQuotasAdmin.EditRule | admin/user-quotas.php:124-148 | The edit writes total, used and status as posted, with no `used <= total` check. The renewal date changes only when a non-empty date is posted. Other rows are unchanged. |
| UserQuotasAdmin.EditCanOverdraw | admin/user-quotas.php:124-148 | An edit can set `quota_used` above `quota_total`, after which the gateway refuses the row. |
| UserQuotasAdmin.QuotaTable.DeleteRow | admin/user-quotas.php:18 | The table loses exactly the row with that id. |
| UserQuotasAdmin.QuotaTable.RunBulk | admin/user-quotas.php:30-72 | The table becomes `ApplyBulk` of the action, and the notice matches the action and the number submitted. |
| UserQuotasAdmin.QuotaTable.HandleActions | admin/user-quotas.php:13-148 | The page dies iff a single delete fails its referer check, and then nothing changes. Otherwise these run in order: the single delete, `action`, `action2`, the edit. |
| UserQuotasAdmin.ExportNeverDropsClauses | admin/user-quotas.php:248-287 | Every export clause has a parameter, so the export never drops its WHERE text. |
| UserQuotasAdmin.ExportFilters | admin/user-quotas.php:248-287 | At most three clauses, each with a parameter. A filled plan filter gives `plan_id = absint(plan)`; a filled status filter gives `status = sanitized status`, with no whitelist; no filled filter gives no clause. |
| UserQuotasAdmin.ExportMatchesListForDropdownFilters | admin/user-quotas.php:248-275 | For the dropdown filters (plan id, listed status) the export builds the same clauses as the list table. |
| UserQuotasAdmin.ExportRow | admin/user-quotas.php:293-306 | A CSV line has: remaining = total − used; a never-blank user and plan; `N/A` for a missing e-mail or renewal date; `Never` without a download. |
| UserQuotasAdmin.ExportAgreesWithList | admin/user-quotas.php:293-306 | The export shows the list's user name, status text, renewal date and last download time. Remaining is negative exactly for overdrawn rows. |
| UserQuotasAdmin.StatisticsBounds | admin/user-quotas.php:314-326 | Active and expired rows together are at most all rows. Distinct users and plans are at most the row count. Every row the gateway refuses as exhausted counts as full. |
| UserQuotasAdmin.Statistics | admin/user-quotas.php:314-326 | The total is the row count and every other count is at most it; no rows give all zeros. |
| UserQuotasAdmin.UsedWithinAllotted | admin/user-quotas.php:314-326 | With no row overdrawn, the downloads used in total never exceed those allotted. |
| UserQuotasAdmin.FullCountsUnlimitedRows | admin/user-quotas.php:322 | An unlimited row with `used >= total` counts as full although the gateway never refuses it. |
| QuotasListTable.BuildFilters | admin/class-shutterpress-user-quotas-table.php:28-125 | The clause and parameter lists are those of the filter specification. They have one placeholder per parameter, of the right kind. |
| QuotasListTable.FilterPlaceholdersMatchParams | admin/class-shutterpress-user-quotas-table.php:31-127 | For every request the WHERE text has exactly one `%d`/`%s` per parameter. |
| QuotasListTable.FiltersWellFormed | admin/class-shutterpress-user-quotas-table.php:31-125 | Every clause the form can produce binds its own parameters. |
| QuotasListTable.UserFilterRule | admin/class-shutterpress-user-quotas-table.php:32-49 | An exact login or e-mail match filters on that user's id. Anything else searches the three user columns with three identical `%term%` parameters. |
| QuotasListTable.PlanFilterRule | admin/class-shutterpress-user-quotas-table.php:51-61 | A numeric term filters on `plan_id = absint(term)`; a non-numeric term searches plan names with `LIKE %term%`. Plain digits give the decimal id; a term starting with a letter always searches names. |
| QuotasListTable.StatusFilterWhitelist | admin/class-shutterpress-user-quotas-table.php:63-69 | The status clause is added exactly for the four known statuses. |
| QuotasListTable.ParamlessAndDateFilters | admin/class-shutterpress-user-quotas-table.php:71-125 | The usage and expiration filters add one clause for a known band and never a parameter. Each date bound that parses adds one parameter with ` 00:00:00` / ` 23:59:59`. |
| QuotasListTable.OrderColumn | admin/class-shutterpress-user-quotas-table.php:130-136 | The sort column is always whitelisted: the requested column when allowed, else `created_at`. |
| QuotasListTable.OrderDirection | admin/class-shutterpress-user-quotas-table.php:131 | The direction is `ASC` iff the upper-cased input is `ASC`, otherwise `DESC`. |
| QuotasListTable.PageNumber | admin/class-shutterpress-user-quotas-table.php:25 | A requested page of at least 1 is honoured; a negative request gives its absolute value; no request, or 0, gives 1. |
| QuotasListTable.PagesCoverRows | admin/class-shutterpress-user-quotas-table.php:24-26 | Row i lies within the offset window of its own page (paired with `total_pages = ceil` at 185-189). That page is at most `ceil(total/per_page)`, and the last page is never empty. |
| QuotasListTable.ListingAsWritten | admin/class-shutterpress-user-quotas-table.php:162-183 | Without parameters, the listing query is issued with no WHERE text. |
| QuotasListTable.UsageOnlyFilterDropped | admin/class-shutterpress-user-quotas-table.php:164-183 | `filter_quota_usage=full` yields one clause and no parameter. The queries as written then carry no WHERE. |
| QuotasListTable.ListingKeepsEveryFilter | admin/class-shutterpress-user-quotas-table.php:138-160 | The corrected queries keep every clause and bind the filter parameters, then the page size and offset. |
| QuotasListTable.AsWrittenAgreesOnlyWithParams | admin/class-shutterpress-user-quotas-table.php:162-183 | The as-written and corrected queries agree exactly when a filter produced a parameter or none produced a clause. |
| QuotasListTable.UserCell | admin/class-shutterpress-user-quotas-table.php:239-255 | The cell shows the user label, then the e-mail line iff there is an address. |
| QuotasListTable.PlanCell | admin/class-shutterpress-user-quotas-table.php:257-271 | The first line is `PlanLabel` of the joined plan's name, `Plan #<id>` with no detail line when the plan is missing; the price and cycle line appears iff both are set. |
| QuotasListTable.StatusCell | admin/class-shutterpress-user-quotas-table.php:290-304 | The colour of a status in the colour table is that entry; any other status is grey. The text is `ucfirst(status)`. |
| QuotasListTable.FilterableStatusesHaveColours | admin/class-shutterpress-user-quotas-table.php:290-304 | The four filterable statuses are exactly the coloured ones; any other is grey. |
| QuotasListTable.RenewalCell | admin/class-shutterpress-user-quotas-table.php:306-324 | "N/A" without a date, otherwise the formatted date. The Expired tag appears iff the date has passed; the Expires Soon tag iff it falls within the next seven days. |
| QuotasListTable.RenewalTagWindows | admin/class-shutterpress-user-quotas-table.php:141-145 | Expired iff before now; expires soon iff within seven days; no tag after that. |
| QuotasListTable.LastDownloadCell | admin/class-shutterpress-user-quotas-table.php:332-337 | "Never" without a download, otherwise its formatted time; with `NeverIffNoDownload`, "Never" is shown iff there was no download, whenever formatted times start with a digit. |
| QuotasListTable.NeverIffNoDownload | admin/class-shutterpress-user-quotas-table.php:332-337 | "Never" is shown iff the row has no download, when every formatted time starts with a digit. |
| DownloadLogsTable.BuildWhere | admin/class-shutterpress-download-logs-table.php:35-50 | The where string and parameters are those of the filter specification, with one placeholder per parameter. |
| DownloadLogsTable.LogWherePlaceholders | admin/class-shutterpress-download-logs-table.php:35-52 | For every request the string given to `prepare` has one placeholder per parameter, of the right kind. |
| DownloadLogsTable.LogFilterRules | admin/class-shutterpress-download-logs-table.php:38-50 | Each id filter is added iff its field is filled. The date range is added only when both ends are given. |
| DownloadLogsTable.ListingQuery | admin/class-shutterpress-download-logs-table.php:55-67 | The listing query leaves exactly the page size and offset to bind. |
| DownloadLogsTable.LogsTable.PrepareItems | admin/class-shutterpress-download-logs-table.php:23-76 | The items are fetched for the prepared filter, 20 per page at offset `(paged-1)*20`. The total is counted with the same filter. |
| DownloadLogsTable.LogUserLabel | admin/class-shutterpress-download-logs-table.php:95 | `display_name` else `User #id`; never blank. |
| DownloadLogsTable.ProductLabel | admin/class-shutterpress-download-logs-table.php:97 | `post_title` else `Product #id`; never blank. |
| DownloadLogsTable.ColumnDefault | admin/class-shutterpress-download-logs-table.php:89-106 | An unknown column gives `''`. The id, user and product columns give the id and the two labels. |
| DownloadLogsTable.EveryColumnRendered | admin/class-shutterpress-download-logs-table.php:78-106 | The user and product columns are never blank. The time and actions columns give the stamp and the delete link. |
| DownloadLogsTable.UserNamesDifferFromQuotaList | admin/class-shutterpress-download-logs-table.php:95 | Without a display name, the log list shows `User #id` while the quota list shows the login. |
| PlansAdmin.ReadFields | admin/plans.php:16-20 | The plan is unlimited iff the box is posted; the quota is read with `intval`. With `EditFormReadsBack`, reading an unchanged edit form gives back the plan's own fields. |
| PlansAdmin.EditForm | admin/plans.php:121-158 | The edit form posts the plan id and a billing cycle from the drop-down; a real plan id is non-empty, so the save takes the update branch; the unlimited box is posted iff the plan is unlimited. |
| PlansAdmin.EditFormReadsBack | admin/plans.php:16-24 | Reading back an unchanged edit form targets the plan's own id and gives its name, quota, price and unlimited flag; a cycle the drop-down does not offer comes back as monthly. |
| PlansAdmin.UnchangedEditIsNoOp | admin/plans.php:22-35 | Saving an unchanged edit form of a plan whose cycle the drop-down offers leaves the plan table as it was. |
| PlansAdmin.EditChangesOnlyFormColumns | admin/plans.php:22-35 | An edit changes only the five form columns of that plan. |
| PlansAdmin.PlanDeleteExact | admin/plans.php:78-79 | A delete keeps exactly the plans whose id is not listed, and keeps ids unique. |
| PlansAdmin.PlanStore.AddOrEditPlan | admin/plans.php:8-67 | A non-admin dies with nothing changed. A non-empty `plan_id` edits that plan and creates nothing. Otherwise one plan is inserted and one product saved, and the product is linked iff the save returned an id. |
| PlansAdmin.PlanStore.EditPlan | admin/plans.php:22-35 | The plan with that id gets the posted name, quota, price, cycle and unlimited flag. Its id and product link are kept, other plans are unchanged, and no product is created. |
| PlansAdmin.PlanStore.InsertPlan | admin/plans.php:38-63 | One plan is appended under the next id and one product draft is saved: published, hidden from the catalogue, virtual and downloadable, with the plan's name and price. The plan is linked to the returned product id, which stays 0 when the save returned none. Plan ids stay unique. |
| PlansAdmin.PlanStore.DeletePlan | admin/plans.php:71-83 | The handler dies unless an admin gives an id; otherwise exactly that plan is deleted. |
| PlansAdmin.PlanStore.BulkAction | admin/plans.php:85-104 | A non-admin dies. A missing field, a non-array `plan_ids`, or another action change nothing. `delete` removes exactly the listed ids. |
| ProductMeta.ShowTypeField | admin/product-meta.php:8-14 | The field is always shown on Add New. On edit it is shown iff the product is both virtual and downloadable. |
| ProductMeta.TrimLeadingSlashes | admin/product-meta.php:63 | Every leading slash is removed and nothing else. |
| ProductMeta.StripBucket | admin/product-meta.php:66 | The key is the result, or `designfabricmedia/` followed by the result; the prefix is removed iff the key starts with it. |
| ProductMeta.ObjectKeyOfPath | admin/product-meta.php:63-66 | `/key` and `/designfabricmedia/key` both give `key`, for any number of leading slashes. |
| ProductMeta.BucketStrippedOnceAtStart | admin/product-meta.php:66 | A doubled prefix keeps one copy, and the bucket name elsewhere is kept. |
| ProductMeta.KeyToSave | admin/product-meta.php:43-69 | A key is saved only on a non-autosave of a downloadable product with downloads whose first URL has a non-empty path. The key is that path's object key. |
| ProductMeta.MetaStore.SaveProductType | admin/product-meta.php:36-40 | The type is written, sanitised, iff the field is posted. |
| ProductMeta.MetaStore.SaveObjectKey | admin/product-meta.php:43-70 | Only `_wasabi_object_key` is written, and only when `KeyToSave` gives a key. |
| SubscriptionStatus.CurrentSubscription | public/subscription-status.php:15-21 | The current subscription is the newest active row whose renewal date is missing or not yet passed; None iff there is none. |
| SubscriptionStatus.CurrentVersusGateway | public/subscription-status.php:15-21 | The page and the gateway pick the same row while its renewal date has not passed. |
| SubscriptionStatus.HistoryIsUsersRowsNewestFirst | public/subscription-status.php:24-30 | The history holds exactly the user's rows, with multiplicity, newest first, whatever their status. |
| SubscriptionStatus.UnlimitedFlagComesFromPlan | public/subscription-status.php:15-18 | "Unlimited" comes from the plan. A row flagged unlimited with a missing or limited plan shows as quota-based. |
| SubscriptionStatus.Remaining | public/subscription-status.php:71 | `total - used` while downloads are left, 0 once the quota is used up or overdrawn. |
| SubscriptionStatus.Percentage | public/subscription-status.php:96 | 0 for a zero total; `used * 100 / total` while downloads are left; capped at 100 and 100 once used up. |
| SubscriptionStatus.ProgressClass | public/subscription-status.php:97 | "critical" iff the percentage is at least 90, "warning" iff it is from 70 up to 90, "normal" otherwise. |
| SubscriptionStatus.ExhaustedQuotaBars | public/subscription-status.php:96-97 | An exhausted positive quota shows a critical bar. A zero quota shows 0% and a normal bar. |
| SubscriptionStatus.ProgressClassMonotone | public/subscription-status.php:97 | The class never gets less severe as the percentage grows. |
| SubscriptionStatus.PriceLine | public/subscription-status.php:51-55 | The price line is shown iff the price and the cycle are both set. |
| SubscriptionStatus.CurrentCard | public/subscription-status.php:61-107 | The card shows the plan name and `PriceLine`. An unlimited plan shows ∞ and the number downloaded, and no bar. Any other shows Total Downloads, Used and Remaining, and the bar at `Percentage` with the class `ProgressClass` of it. The renewal date comes last. With `CardShowsTheCounts`, the shown numbers read back as total and used, and used plus remaining is the total unless overdrawn. |
| SubscriptionStatus.CardShowsTheCounts | public/subscription-status.php:61-97 | On a limited plan the shown total and used read back as the row's; used plus remaining is the total unless overdrawn, and remaining is 0 when overdrawn. |
| SubscriptionStatus.StatusIcon | public/subscription-status.php:137-146 | The icon of a status in the icon table; `dashicons-marker` iff the status is not in the table; no two table statuses share an icon, so the icon identifies a known status. |
| SubscriptionStatus.HistoryItem | public/subscription-status.php:150-189 | The plan name is never blank and the status is shown through `ucfirst`. The Started line shows the formatted creation time. The renewal line appears iff there is a date, labelled "Renews:" iff active. The reason appears iff the row is cancelled with a reason. |
| SubscriptionStatus.NonActiveRowsSayExpired | public/subscription-status.php:175-181 | Every non-active row is labelled "Expired:", pending rows included. |
| SubscriptionStatus.Render | public/subscription-status.php:2-30 | Anonymous users get only the login message. The current card is shown iff a current subscription exists, and it is `CurrentCard` of that row joined with its plan; without one, the browse link goes to the plans page. History item k is `HistoryItem` of the user's k-th row, newest first. |
| DownloadHistory.CurrentPage | public/download-history.php:16 | A requested page of at least 1 is honoured; no request, or one below 1, gives page 1. |
| DownloadHistory.TotalPages | public/download-history.php:25 | `ceil(total/10)`: the last page holds the last row. |
| DownloadHistory.PageRows | public/download-history.php:17-30 | Page p holds rows `(p-1)*10` up to `min(p*10, total)`; it is empty past the end. |
| DownloadHistory.ShowingMatchesRows | public/download-history.php:143 | Up to the last page, "Showing a-b" names exactly the listed rows. Past it the list is empty. |
| DownloadHistory.PageNav | public/download-history.php:151-199 | The loop builds exactly the specified navigation `Nav(p, n)`. |
| DownloadHistory.NavPages | public/download-history.php:160-190 | Page numbers appear once each, increasing. They are exactly the first page, the last page and those within two of the current one. |
| DownloadHistory.NavNumbers | public/download-history.php:160-190 | The numbers are page 1 iff the window starts after it, then the window, then the last page iff the window ends before it. |
| DownloadHistory.NavPrev | public/download-history.php:154-159 | Previous appears iff p > 1. |
| DownloadHistory.NavNext | public/download-history.php:194-199 | Next appears iff p < total pages. |
| DownloadHistory.NavCurrent | public/download-history.php:175-181 | The current page appears, and it is the only page shown without a link. |
| DownloadHistory.NavDots | public/download-history.php:168-190 | Leading dots appear iff the window starts after page 2. Trailing dots appear iff it ends before page n-1. |
| DownloadHistory.GroupByDay | public/download-history.php:50-78 | The groups concatenate to the page's logs in order. Each group is non-empty with one day, and consecutive groups differ in day. |
| DownloadHistory.DayLabel | public/download-history.php:62-72 | The heading is Today, Yesterday or the formatted date; with `DayLabelIdentifiesDay`, "Today" iff the day is today, "Yesterday" iff it is the day before, and equal headings mean equal days. |
| DownloadHistory.DayLabelIdentifiesDay | public/download-history.php:62-72 | When the date format is injective and never yields Today or Yesterday: "Today" iff today, "Yesterday" iff the day before, equal headings iff equal days. |
| DownloadHistory.TypeIcon | public/download-history.php:82-99 | free is a green download icon, subscription a blue star, premium a red cart, any other type a grey download icon; the type is compared lower-cased. With `TypeColourIdentifiesType`, the colour tells the three known types apart. |
| DownloadHistory.TypeColourIdentifiesType | public/download-history.php:82-99 | Distinct known types get distinct colours. |
| DownloadHistory.RenderHistory | public/download-history.php:4-215 | Login required iff anonymous. "No Downloads Yet" iff the page has no rows. Otherwise the groups are the page's rows. Pagination appears iff there is more than one page, with `Showing` and `Nav`. |
| PlansDisplay.ListedMembers | public/plans-display.php:15-20 | A plan is listed under a cycle iff it has a product and that cycle. |
| PlansDisplay.ListedByPrice | public/plans-display.php:15-20 | Plans ordered by price within each cycle stay ordered by price within each tab. |
| PlansDisplay.Push | public/plans-display.php:18 | With `PushIsArrayAppend`: keys stay distinct; an existing key's list gains the plan at its end; a new key holds `[plan]` at the end of the array; other keys keep their lists; earlier positions keep their keys. |
| PlansDisplay.PushIsArrayAppend | public/plans-display.php:18 | `$grouped[cycle][] = plan` on an ordered array: distinct keys kept, the list of the key gains the plan at its end, a new key is appended, nothing else changes. |
| PlansDisplay.PushKeepsGrouping | public/plans-display.php:15-20 | Appending a shown plan keeps the grouping invariant. |
| PlansDisplay.GroupPlans | public/plans-display.php:15-20 | Keys are distinct, and a key is present iff some shown plan has that cycle. Each list holds that cycle's shown plans in query order. |
| PlansDisplay.TabLabel | public/plans-display.php:34-38 | yearly is "Annual"; any other cycle is `ucfirst(cycle)`, so monthly is "Monthly" and quarterly "Quarterly". |
| PlansDisplay.RenderTabs | public/plans-display.php:40-53 | One tab per cycle. Only the first is active; Best Value iff yearly. |
| PlansDisplay.PlanCard | public/plans-display.php:64-124 | Featured iff first of several. The button text follows from featured. The checkout URL is `?add-to-cart=<product>`. Savings iff yearly. Unlimited plans are badged and list commercial rights. |
| PlansDisplay.RenderPanels | public/plans-display.php:57-129 | One panel per cycle, holding that cycle's cards. Only the first is active. |
| PlansDisplay.RenderPlans | public/plans-display.php:9-130 | "No plans" iff there are no rows at all. Tabs and panels align, and there are none iff no plan has a product. Only the first tab and panel are active. |
| PlansDisplay.FeaturedIsFirstOfSeveral | public/plans-display.php:64-66 | At most the first card of a panel is featured, exactly when there are several. Each card links its own product. |
| PlansDisplay.SavingsOnlyForYearlyPlans | public/plans-display.php:68-73 | A card shows savings iff its plan is yearly. |
| PublicInit.SetItem | public/public-init.php:19-20 | With `SetItemIsArrayWrite`: keys stay distinct; the key is labelled with the new title and only once; other keys keep their labels; the array grows by one iff the key was new; earlier positions keep their keys. |
| PublicInit.SetItemIsArrayWrite | public/public-init.php:19-20 | `$items[key] = title` on an ordered array: distinct keys kept, the key labelled with the title exactly once, other labels and positions kept, the length grows iff the key was new. |
| PublicInit.AccountMenuKeepsItems | public/public-init.php:18-22 | Existing items keep their place. Only the two endpoints are added, and both are present afterwards. |
| PublicInit.AccountMenuIdempotent | public/public-init.php:18-22 | Running the filter twice equals running it once. |
| PublicInit.FindShortcodePage | public/public-init.php:182-197 | The id of the first page with the shortcode; None iff no page has it. |
| PublicInit.FindShortcodePageFirstWins | public/public-init.php:182-197 | Pages before the first match and pages after it never change the answer. |
| PublicInit.ProductQuery.HidePlanProducts | public/public-init.php:200-216 | Admin and non-product queries are unchanged. Otherwise exactly one `NOT IN` clause for the plan tag is appended after the existing ones. |
| PublicInit.HidePlansExcludesTaggedProducts | public/public-init.php:207-216 | Under the AND relation, exactly the tagged products are hidden; others match as before. |
| PublicInit.OrRelationLetsPlanProductsThrough | public/public-init.php:207-216 | Under an existing OR relation, a plan product that meets another clause is still listed. |
| PublicInit.DashboardRender.AddDashboardStyles | public/public-init.php:121-125 | The styles are printed on the first call only. |
| PublicInit.DashboardRender.RenderSubscriptionPage | public/public-init.php:83-100 | The page, then the styles, on the first call only. |
| PublicInit.DashboardRender.RenderDownloadsPage | public/public-init.php:102-119 | The page, then the styles, on the first call only. |
| PublicInit.RunRequest | public/public-init.php:83-125 | Whatever the calls: each block is printed at most once, each page iff it was called, and the styles iff anything was called. |

## Left out

- Remote storage and streaming are inputs to the gateway:
  - the signer of includes/wasabi.php;
  - `get_headers`, `fopen` and `fpassthru`.
  The model states which outcome each answer leads to.
- `shutterpress_get_attachment_id_from_url`, `as3cf_get_attachment_s3_info` and `wp_verify_nonce` are abstract functions given as inputs.
- The quota increment in the gateway is a read followed by a write. The model is sequential and claims nothing about concurrent requests.
- GD image work is left out: decoding, drawing, `imagettfbbox`, and the tile geometry of `add_diagonal_pattern`. It is floating-point rendering. Generation is an input predicate constrained only by its guards.
- md5 (RFC 1321) is an uninterpreted function. Only the length of its output is used.
- `get_product_from_attachment` (public/watermark-handler.php:225-249) is not modelled: it is a database lookup with a `LIKE` match.
- The `update_option_*` hooks are modelled by whether they are registered (`hooked`, true when GD is available) and by comparing the typed new value with the stored one. WordPress compares the serialized database values, so a value that differs only in its text form (`"50"` against `50`) is not modelled.
- PlansAdmin.Draft (admin/plans.php:48-58) is the WooCommerce product draft built for a new plan; it is a helper of `InsertPlan`, whose row states what the product receives.
- The `debug_all_products` action is not modelled beyond its dispatch and its "not available" message.
- The `test_watermark` action is not modelled beyond its dispatch; its preview rendering is presentation.
- HTML, CSS and JavaScript output is left out. The model also leaves out:
  - `esc_html`/`esc_url`;
  - date formatting, given as functions;
  - `wc_price`, `number_format`;
  - the percentages of `column_quota_info`;
  - `column_actions` and `column_cb`.
- QuotasListTable.PageNumber: `get_pagenum` is modelled as `absint` of the parameter, at least 1. WordPress's own cap at the total page count is not modelled.
- SQL text is modelled as fragments (literals and typed holes). These are abstract functions:
  - `prepare`'s escaping and quoting;
  - the database's evaluation of the listing and count queries;
  - `sanitize_sql_orderby`;
  - `sanitize_text_field`;
  - the date parsing of the date filters.
- Common.IntVal: `intval` is modelled for optional leading spaces, an optional sign and decimal digits. Exponent forms, hexadecimal strings and 64-bit saturation are not modelled.
- Database errors (a failed `insert`/`update` returning false) are not modelled. Each write succeeds, except that the product save may return 0.
- The bulk delete of an empty id list would issue `IN ()`. The model treats it as deleting nothing.
- PHP array keys that are numeric strings (a billing cycle of `"12"` becomes the integer key 12) are not modelled. Cycles are strings.
- A `post_type` given as an array in `pre_get_posts` is not modelled. Only a single post type string is compared with `product`.
- The Dokan dashboard glue in public/public-init.php is not modelled: the `template_redirect` hook, its URL matching, and the `wp_footer` style fallback. Only the render-once functions it calls are modelled. The rewrite endpoints registered on `init` are not modelled either.
- The Dokan product glue is not part of this model: public/dokan-hooks.php, public/dokan-product-meta.php.
- These files are not part of this model: includes/init.php (schema, activation, order completion), admin/admin-init.php, admin/settings.php, admin/download-logs.php.
- DownloadHistory.GroupByDay: days are given by a `dayOf` function on timestamps. The site's time zone and `date()` formatting are not modelled.
- Prices are `real` values read with `floatval`. PlansDisplay.PlanCard: the savings are stated as the value `price * 0.2`, not as the formatted `wc_price` text.
- The render-once flags of public/public-init.php are PHP `static` variables. They are modelled as fields of one object per request.

## Findings

| source | as written | input that shows it | evidently intended | confidence | as-written member | corrected member |
|---|---|---|---|---|---|---|
| public/download-button-handler.php:26-28 | The "Download Now" link carries only `shutterpress_download=<id>`, but the gateway (includes/download-handler.php:11-15) refuses any request whose `_wpnonce` does not verify for `shutterpress_download_<id>`. | Any free or subscription product with a file, clicked by a logged-in user with quota. The link has no `_wpnonce`, the empty nonce never verifies, and the gateway answers "Invalid or expired download link." | The link should carry `_wpnonce = wp_create_nonce('shutterpress_download_' . id)`, so that an offered download passes the gateway. | not executed | DownloadButton.ButtonLinkAsWritten, DownloadButton.AsWrittenLinkAlwaysRefused | DownloadButton.ButtonLink, DownloadButton.OfferedDownloadPassesGateway |
| admin/class-shutterpress-user-quotas-table.php:164-183 | When no filter produced a parameter, the listing and count queries are issued without `$where_sql`, so parameter-free clauses are dropped. | `filter_quota_usage=full` alone: one clause, no parameter, and the list and count then include every quota, full or not. The same holds for an expiration-only filter. | The WHERE text should be kept whether or not there are parameters. Only the choice of `prepare` should depend on them. | not executed | QuotasListTable.ListingAsWritten, QuotasListTable.UsageOnlyFilterDropped | QuotasListTable.ListingKeepsEveryFilter |
