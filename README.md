# Secure Updates Client — a Dafny model of its update-source policy

The Secure Updates Client is a WordPress plugin that lets a site take its plugin updates from an
operator-chosen host instead of WordPress.org. Most of the plugin is WordPress plumbing:
settings forms, menus, cron registration and a log table. This project models the decisions
behind that plumbing, all from the `Secure_Updates_Client` class:

- **Update rewrite** (`UpdateRewrite`). The `pre_set_site_transient_update_plugins` filter points the
  `package` URL of each eligible update entry at `trailingslashit(host) . "wp-json/secure-updates-server/v1/download/" . sanitize_title(slug)`.
  An entry is eligible when its plugin file has no `UpdateURI` header and its `package` is empty.
  Every other entry, and every other field, is left alone.
- **Inventory sync** (`PluginSync`). The activation, deactivation and upgrade hooks, and the daily
  event, collect plugin slugs. A slug is the directory of a plugin file. Files that declare
  `UpdateURI` are skipped, and so are files that sit directly in the plugins directory. The hooks
  then decide whether one POST goes to `.../v1/plugins`. The POST is returned as a value,
  `NoOp | Post(url, authorization, clientHome, plugins)`.
- **Rate limiter** (`RateLimit`). `check_rate_limit` guards a transient holding the last request
  time. It has a 5-second cooldown, and the transient expires after an hour. It is modelled as
  a class with a `lastRequest` field, and its method takes the current time.
- **Plugin-information gating** (`PluginInformation`). The `plugins_api` filter adds a "Secure update
  available" section for a mirrored slug. It does so only when the host's download metadata
  arrives with status 200 and a non-empty checksum.
- **Connection test** (`ConnectionTest`). This is the order of the replies of the administrator's
  "Test Connection" AJAX action.
- **Shared predicates** (`Client`, `Php`). These are `has_custom_update`,
  `is_using_custom_host`, `secure_updates_client_is_plugin_securely_updated` and
  `verify_plugin_compatibility`. `Php` gives PHP's `empty()` (null, `""` and `"0"` are empty)
  and `dirname()`.

Each operation reads the site through a `Site` value. It holds the three plugin options, the
home URL, each plugin file's `UpdateURI` header and the mirrored-plugins option.
`trailingslashit`, `sanitize_title`, `sanitize_text_field`, `esc_url_raw` and `version_compare`
are fields of a `WordPress` value. They are left uninterpreted, so no proof depends on what they
do. An HTTP GET is a function argument `fetch: string -> HttpResponse`, so the URL that is
fetched is part of each contract. `HttpResponse` is a transport error or a status with the
decoded `checksum`.

Some facts about the code that the model keeps:
- The code has one rate-limit tier: a 5 s cooldown and a 1 h expiry. Nothing calls
  `check_rate_limit`, so the sync is not throttled.
- The sync returns nothing. A transport failure is only written to the error log.
- The plugin-information filter checks only that a checksum is present. It never verifies it.
- URLs are built with `trailingslashit(host)` followed by a route without a leading slash.
  `sanitize_title` is a WordPress function whose rules are not part of this model.
- A full resend with an empty filtered inventory still POSTs `{"plugins": []}`.

## Model

| member | source | states |
|---|---|---|
| Php.Dirname | secure-updates-client.php:247 | The slug of a file without '/' is "."; otherwise it is the prefix before the last '/'. That '/' is followed by no other '/'. |
| Client.DownloadUrl | secure-updates-client.php:389 | The download URL is never PHP-empty for any host or slug. It starts with `trailingslashit(host)`, which is followed by the download route verbatim. |
| PluginSync.CustomUpdateFileIgnored | secure-updates-client.php:403-414 | A file whose `UpdateURI` is not empty contributes no slug: inserting it anywhere in a file list leaves the collected slugs unchanged. |
| Client.MirroredLookup | secure-updates-client.php:466-470 | The lookup depends only on the slug's own entry of the mirrored-plugins option. Writing that entry decides the answer, and a null value unsets it. Writing any other entry leaves the answer unchanged. |
| Client.IsPluginSecurelyUpdated | secure-updates-client.php:579-586 | A plugin file counts as securely updated exactly when its directory is a mirrored slug. A file with no directory is looked up as ".". |
| Client.VerifyPluginCompatibility | secure-updates-client.php:130-136 | A plugin with no `requires` is compatible. Otherwise it is compatible exactly when the running version is at least the declared one. |
| UpdateRewrite.OverridePluginUpdateUrl | secure-updates-client.php:375-394 | The loop over the response map gives the transient whose response is `OverriddenResponse` of the old one. Every other transient field is unchanged. |
| UpdateRewrite.OverrideOffIsIdentity | secure-updates-client.php:375-378 | When the host is disabled or the response is empty, the filter returns the response unchanged. |
| UpdateRewrite.OverrideEntry | secure-updates-client.php:380-390 | No key is added or removed. Slug and version never change. An entry with `UpdateURI` is untouched. An entry changes exactly when the host is enabled, it has no `UpdateURI` and its package is empty. Its new package is then exactly the download URL. |
| UpdateRewrite.RedirectedNotFromWordPressOrg | secure-updates-client.php:422-425 | An entry whose package was rewritten no longer passes the WordPress.org (empty package) test. |
| UpdateRewrite.OverrideIdempotent | secure-updates-client.php:386-390 | Applying the filter twice gives the same response as applying it once. |
| PluginSync.FilteredSlugsConcat | secure-updates-client.php:304-311 | Collecting slugs from a concatenation of file lists gives the concatenation of the two slug lists, in order. |
| PluginSync.FilteredSlugsMembers | secure-updates-client.php:304-311 | A slug is collected exactly when some file without a custom update has it as its directory. "." is never collected. There are never more slugs than files. |
| PluginSync.CollectSlugs | secure-updates-client.php:272-280 | The append loop returns, in input order, the directory of each syncable file. |
| PluginSync.SendInstalledPluginsToServer | secure-updates-client.php:290-326 | No request when the host is disabled or the host or API key is empty. Otherwise exactly one POST to `trailingslashit(host)` + `wp-json/secure-updates-server/v1/plugins`, with `Bearer <key>` and the home URL. It carries the given slugs, or the full filtered inventory when none are given. |
| PluginSync.PluginActivated | secure-updates-client.php:245-252 | A POST is made exactly when the file is syncable and the configuration allows it. It is the full POST to the plugins endpoint, with `Bearer <key>` and the home URL, and it carries only `[dirname(file)]`. |
| PluginSync.PluginDeactivated | secure-updates-client.php:257-265 | The guard is the same as for activation. The POST has the same URL and headers, and it resends the whole filtered inventory. |
| PluginSync.HandlePluginChanges | secure-updates-client.php:270-285 | A POST is made exactly when `type` is "plugin", the changed files yield a slug and the configuration allows it. It goes to the plugins endpoint with `Bearer <key>` and the home URL, and carries exactly those slugs. |
| PluginSync.InventoryOmitsCustomUpdate | secure-updates-client.php:304-311 | Given one plugin with `UpdateURI` and one without, the inventory holds only the second plugin's slug. |
| RateLimit.AllowedCallReadBack | secure-updates-client.php:139-145 | The time an allowed call stores is read back as that time for exactly one hour, and as nothing afterwards. |
| RateLimit.ThrottledIffRecent | secure-updates-client.php:138-147 | For a transient that `check_rate_limit` wrote, a call is refused exactly when the last time is non-zero and less than 5 s before now. The one-hour expiry never changes the answer. |
| RateLimit.StepFrame | secure-updates-client.php:140-146 | A refused call leaves the stored transient unchanged. An allowed call stores now with a one-hour timeout. |
| RateLimit.CooldownElapsedAllows | secure-updates-client.php:140-146 | Once 5 s have passed since the last stored time, the next call is allowed. |
| RateLimit.RefusedCallsKeepState | secure-updates-client.php:140-144 | Across a run of refused calls, the next call is answered from the original transient. |
| RateLimit.AllowedCallsAreSpaced | secure-updates-client.php:138-147 | Two successive allowed calls are at least 5 s apart, when the earlier one is not at time 0. |
| RateLimit.RateLimiter.CheckRateLimit | secure-updates-client.php:138-147 | The method returns false and leaves the field unchanged while a non-zero last time is under 5 s old. Otherwise it stores now and returns true. |
| PluginInformation.ModifyPluginInformation | secure-updates-client.php:435-458 | The section is added only when all of these hold: the action is `plugin_information`, the host is enabled, the slug is mirrored, and the fetch of the download URL gives status 200 with a sanitised checksum that is not empty. Otherwise the result is unchanged. Other fields and sections are never touched. |
| PluginInformation.ModifyPluginInformationIdempotent | secure-updates-client.php:449-451 | Applying the filter to its own output changes nothing. |
| PluginInformation.NoChecksumNoSection | secure-updates-client.php:447-453 | A 200 reply without a checksum never produces the section. |
| ConnectionTest.TestCustomHostConnection | secure-updates-client.php:475-506 | Replies in order: nonce failure, missing capability, empty URL, the transport error's message, "Connection failed" for status other than 200, otherwise success. The probe goes to `trailingslashit(url)` + `wp-json/secure-updates-server/v1/connected`. |
| ConnectionTest.SuccessExactlyOn200 | secure-updates-client.php:496-505 | Success is reported exactly when a permitted request names a non-empty URL whose `/connected` endpoint answers 200. |

## Left out

- Admin UI, settings registration, log table and log page: `settings_page`, `setup_admin_menu`, `register_settings`, `enqueue_admin_scripts` and the `secure_updates_client_*log*` functions. They are HTML rendering and SQL through `$wpdb`.
- Cron plumbing: `schedule_daily_sync`, `activate_plugin` and `deactivate_plugin` only register or clear a WordPress event.
- HTTP and JSON: `wp_remote_post`, `wp_remote_get`, `json_encode` and `json_decode` are not modelled. A POST is a returned `Request` without its content type, 15 s timeout and `sslverify` flag. A GET's result is a `fetch` argument. The `error_log` call after a failed POST has no result.
- `verify_plugin_checksum`: SHA-256 over a file and a constant-time comparison are foreign calls, timing cannot be stated, and nothing calls it.
- `secure_updates_client_plugin_indicator`: the `plugin_row_meta` registration at secure-updates-client.php:57 puts the priority and argument count inside the callback array. Its body at line 573 calls `secure_updates_client_is_plugin_securely_updated` as a free function, but that is defined only as a method at line 579. Only the method is modelled.
- `sanitize_boolean` and the constructor's option loading are taken as given by `Site`.
- Php.Dirname: only paths of the form `dir/file.php` or `file.php` are modelled. PHP's collapsing of repeated and trailing slashes is not modelled. Nor is its "/" for a file at the root, or its "" for the empty path, where the model gives ".".
- UpdateRewrite.OverridePluginUpdateUrl: the method returns a new transient value instead of mutating the entry objects in place. Two keys sharing one PHP object (aliasing) are not modelled.
- RateLimit.RateLimiter.CheckRateLimit: both `time()` calls of the source read the same `now`. Deleting an expired transient on read is not modelled, because an expired transient is always overwritten in the same call.
- RateLimit.AllowedCallsAreSpaced: calls are taken to run one after another. In PHP the read at line 139 and the write at line 145 are separate and unlocked. Two overlapping requests can both read the old time and both be allowed within 5 s. This race is not modelled. Nothing calls `check_rate_limit`, so the gap has no effect today.
- PluginInformation.ModifyPluginInformation: `$result` is taken to be an object. The filter's default `false` result, when the gate opens, is not modelled: PHP 7 creates an object and PHP 8 raises an error. The section text is the untranslated string.
- ConnectionTest.TestCustomHostConnection: the nonce and capability checks are boolean inputs. Each reply ends the request, as `wp_send_json_*` does. The reply messages are the untranslated strings passed to `__()`.
- Type juggling: a non-string `checksum` and a non-array mirrored-plugins option are not modelled. Upgrade options with no `plugins` entry are modelled as an empty list, and with no `type` entry as `""`; both give no request, as in PHP.
